/**
 A group of servers with a fixed configuration, and a network that may lose, duplicate and reorder
 whatever is sent. Each step is one handler of module `Handlers` run by one server.

 Clocks are events: a timer may fire whenever it is started, and a server may or may not be open to
 vote requests. Compaction is locked and no state transfer is asked for, so logs start at index 1.
 */
module Group {
  import opened Types
  import opened Log
  import opened Handlers
  import opened Core

  datatype Packet =
    | AskVote(to: Id, vote: VoteRequest)
    | AnswerVote(to: Id, ballot: VoteResponse)
    | AskAppend(to: Id, append: AppendRequest)
    | AnswerAppend(to: Id, answer: AppendResponse)
  {
    function From(): Id {
      match this
      case AskVote(_, vote) => vote.serverId
      case AnswerVote(_, ballot) => ballot.serverId
      case AskAppend(_, append) => append.serverId
      case AnswerAppend(_, answer) => answer.serverId
    }
  }

  /** An assertion of the original that failed: the server stops there. */
  datatype Abort =
    | ElectionByLeader(id: Id)
    | AppendToLeader(id: Id)
    | BadNextIndex(id: Id)

  /** That the leader of a term passed this index to its commit, as the middle one reached. */
  datatype Commitment = Commitment(term: nat, index: nat)

  /**
   What a run leaves behind: the history of votes, elections and logs; whether a server became leader
   without a vote; the terms whose leader took its peers to match nothing at first; and the own-term
   commits of those leaders.
   */
  datatype Record = Record(h: History, unvoted: bool, freshTerms: set<nat>, commits: set<Commitment>)

  datatype Group = Group(nodes: seq<Node>, net: set<Packet>, aborts: set<Abort>, record: Record) {
    predicate Up(i: Id) {
      forall a :: a in aborts ==> a.id != i
    }
  }

  datatype Event =
    | Timeout(i: Id)
    | ReceiveVoteRequest(p: Packet, open: bool)
    | ReceiveVoteResponse(p: Packet)
    | SendAppend(i: Id, peer: nat, gap: nat, batch: nat)
    | ReceiveAppendRequest(p: Packet)
    | ReceiveAppendResponse(p: Packet)
    | ReceivePublish(i: Id, request: PublishRequest)
    | GiveUp(i: Id, lock: bool)
    | LockCommits(i: Id, locked: bool)

  //
  // The start
  //

  function Ids(size: nat): (r: seq<Id>)
    ensures |r| == size && forall i :: 0 <= i < size ==> r[i] == i
  {
    seq(size, i requires 0 <= i < size => i)
  }

  function Others(size: nat, self: Id): (r: seq<Id>)
    ensures forall id: nat :: id in r <==> id < size && id != self
    ensures forall i, j :: 0 <= i < j < |r| ==> r[i] != r[j]
    ensures |r| == if self < size then size - 1 else size
  {
    if size == 0 then []
    else if size - 1 == self then Others(size - 1, self)
    else
      var r := Others(size - 1, self);
      assert size - 1 !in r;
      r + [size - 1]
  }

  function NewGroup(size: nat): Group {
    Group(seq(size, i requires 0 <= i < size => Started(i, Ids(size))), {}, {},
          Record(History(map[], map[], map[], map[], {}), false, {}, {}))
  }

  //
  // What a step of one server adds to the record
  //

  predicate BecomesCandidate(n: Node, n': Node) {
    n'.term > n.term && n'.role != Follower
  }

  predicate BecomesLeader(n: Node, n': Node) {
    n.role != Leader && n'.role == Leader
  }

  /** The server was a candidate counting votes, or it is alone in its group. */
  predicate VotePhase(n: Node) {
    (n.role == Candidate && !n.election.preVote) || n.peers == []
  }

  predicate MatchesNothing(peers: seq<Peer>) {
    forall i :: 0 <= i < |peers| ==> peers[i].matched == 0
  }

  function ObserveBid(h: History, n: Node, n': Node): History {
    if BecomesCandidate(n, n') then h.Bid(Slot(n'.term, n.id), n.log.entries) else h
  }

  function ObserveWin(h: History, n: Node, n': Node, size: nat): History {
    if BecomesLeader(n, n') && VotePhase(n)
    then h.Win(Slot(n'.term, n.id), n.log.entries, size) else h
  }

  function ObserveLead(h: History, n: Node, n': Node): History {
    if n'.role == Leader && h.LedBy(n'.term, n.id) then h.Lead(n'.term, n'.log.entries) else h
  }

  function ObserveHistory(h: History, n: Node, n': Node, size: nat): History {
    ObserveLead(ObserveWin(ObserveBid(h, n, n'), n, n', size), n, n')
  }

  function Observe(r: Record, n: Node, n': Node, size: nat): Record {
    r.(h := ObserveHistory(r.h, n, n', size),
       unvoted := r.unvoted || (BecomesLeader(n, n') && !VotePhase(n)),
       freshTerms := if BecomesLeader(n, n') && VotePhase(n) && MatchesNothing(n.peers)
                then r.freshTerms + {n'.term} else r.freshTerms)
  }

  function ObserveVote(r: Record, n': Node, request: VoteRequest, response: VoteResponse): Record {
    if response.accepted && !request.preVote
    then r.(h := r.h.Vote(Slot(n'.term, n'.id), request.serverId, n'.log.entries)) else r
  }

  function ObserveAck(r: Record, n': Node, response: AppendResponse): Record {
    if response.accepted && response.nextIndex >= 1
    then r.(h := r.h.Acknowledge(Slot(n'.term, n'.id), response.nextIndex - 1)) else r
  }

  /** The index that the handler of an append response passes to the leader's commit. */
  function CommitOf(n: Node, from: Id, response: AppendResponse): Option<nat>
    requires n.Retains()
  {
    var i := PeerIndex(n.peers, from);
    if i == |n.peers| || response.term != n.term || n.role != Leader || !response.accepted
       || response.nextIndex == 0 || response.serverId != from
    then None
    else
      var peer := n.peers[i].(rewindStep := 1, nextIndex := response.nextIndex,
                              matched := response.nextIndex - 1);
      Some(Median(Reached(n.(peers := n.peers[i := peer]))))
  }

  function ObserveCommit(r: Record, n: Node, index: Option<nat>): Record {
    if index.Some? && n.term in r.freshTerms && r.h.LedBy(n.term, n.id)
       && n.log.start <= index.value < n.log.End() && n.log.At(index.value).term == n.term
    then r.(commits := r.commits + {Commitment(n.term, index.value)}) else r
  }

  //
  // Steps
  //

  function ToAll(peers: seq<Peer>, vote: Option<VoteRequest>): (r: set<Packet>)
    ensures forall p :: p in r <==>
      vote.Some? && p.AskVote? && p.vote == vote.value && exists i :: 0 <= i < |peers| && peers[i].id == p.to
  {
    if vote.None? then {}
    else set i | 0 <= i < |peers| :: AskVote(peers[i].id, vote.value)
  }

  function Update(g: Group, i: Id, n': Node, sent: set<Packet>): Group
    requires i < |g.nodes|
  {
    g.(nodes := g.nodes[i := n'],
       net := g.net + sent,
       record := Observe(g.record, g.nodes[i], n', |g.nodes|))
  }

  predicate Target(g: Group, i: Id) {
    i < |g.nodes| && g.Up(i) && g.nodes[i].Retains()
  }

  predicate Enabled(g: Group, e: Event) {
    match e
    case Timeout(i) => Target(g, i) && g.nodes[i].election.timerStarted
    case ReceiveVoteRequest(p, _) => p in g.net && p.AskVote? && Target(g, p.to)
    case ReceiveVoteResponse(p) => p in g.net && p.AnswerVote? && Target(g, p.to)
    case SendAppend(i, peer, gap, batch) =>
      && Target(g, i) && peer < |g.nodes[i].peers| && g.nodes[i].role == Leader
      && (CanCreateAppendRequest(g.nodes[i], g.nodes[i].peers[peer]) ==>
            CreateAppendRequest(g.nodes[i], g.nodes[i].peers[peer], gap, batch).transfer.None?)
    case ReceiveAppendRequest(p) => p in g.net && p.AskAppend? && Target(g, p.to)
    case ReceiveAppendResponse(p) =>
      && p in g.net && p.AnswerAppend? && Target(g, p.to)
      && (p.answer.accepted ==> p.answer.nextIndex >= 1)
    case ReceivePublish(i, _) => Target(g, i)
    case GiveUp(i, _) => Target(g, i) && g.nodes[i].role == Leader && g.nodes[i].peers != []
    case LockCommits(i, _) => Target(g, i)
  }

  function Next(g: Group, e: Event): Group
    requires Enabled(g, e)
  {
    match e
    case Timeout(i) =>
      var n := g.nodes[i];
      if n.role == Leader then g.(aborts := g.aborts + {ElectionByLeader(i)})
      else
        var effect := RequestElection(n);
        Update(g, i, effect.node, ToAll(n.peers, effect.broadcast))
    case ReceiveVoteRequest(p, open) =>
      var (n', response) := HandleVoteRequest(g.nodes[p.to], p.vote, open);
      var g' := Update(g, p.to, n', {AnswerVote(p.vote.serverId, response)});
      g'.(record := ObserveVote(g'.record, n', p.vote, response))
    case ReceiveVoteResponse(p) =>
      var n := g.nodes[p.to];
      var effect := HandlePeerVoteResponse(n, p.ballot.serverId, p.ballot);
      Update(g, p.to, effect.node, ToAll(n.peers, effect.broadcast))
    case SendAppend(i, peer, gap, batch) =>
      var n := g.nodes[i];
      if !CanCreateAppendRequest(n, n.peers[peer]) then g.(aborts := g.aborts + {BadNextIndex(i)})
      else
        g.(net := g.net + {AskAppend(n.peers[peer].id,
                                     CreateAppendRequest(n, n.peers[peer], gap, batch))})
    case ReceiveAppendRequest(p) =>
      var n := g.nodes[p.to];
      if !AppendRequestAllowed(n, p.append) then g.(aborts := g.aborts + {AppendToLeader(p.to)})
      else
        var (n', response) := HandleAppendRequest(n, p.append);
        var g' := Update(g, p.to, n', {AnswerAppend(p.append.serverId, response)});
        g'.(record := ObserveAck(g'.record, n', response))
    case ReceiveAppendResponse(p) =>
      var n := g.nodes[p.to];
      var (n', _) := HandlePeerAppendResponse(n, p.answer.serverId, p.answer);
      var g' := Update(g, p.to, n', {});
      g'.(record := ObserveCommit(g'.record, n, CommitOf(n, p.answer.serverId, p.answer)))
    case ReceivePublish(i, request) =>
      var (n', _) := HandlePublish(g.nodes[i], request);
      Update(g, i, n', {})
    case GiveUp(i, lock) =>
      Update(g, i, StepDown(g.nodes[i], lock), {})
    case LockCommits(i, locked) =>
      Update(g, i, g.nodes[i].(commitsLocked := locked), {})
  }

  predicate Step(g: Group, e: Event, g': Group) {
    Enabled(g, e) && g' == Next(g, e)
  }

  predicate StepAt(states: seq<Group>, events: seq<Event>, k: nat)
    requires |states| == |events| + 1 && k < |events|
  {
    Step(states[k], events[k], states[k + 1])
  }

  /** The states of a run, from the start of a group through one event each. */
  ghost predicate Run(states: seq<Group>, events: seq<Event>) {
    && |states| == |events| + 1
    && |states[0].nodes| >= 1
    && states[0] == NewGroup(|states[0].nodes|)
    && forall k: nat {:trigger StepAt(states, events, k)} :: k < |events| ==> StepAt(states, events, k)
  }
}
