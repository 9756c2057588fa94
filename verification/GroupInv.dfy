/**
 The invariant of a group: what ties its servers and the packets in its network to the history.
 */
module GroupInv {
  import opened Types
  import opened Log
  import opened Handlers
  import opened NodeFacts
  import opened Quorums
  import opened Core
  import opened Group

  function Terms(nodes: seq<Node>): (r: seq<nat>)
    ensures |r| == |nodes| && forall i :: 0 <= i < |r| ==> r[i] == nodes[i].term
  {
    seq(|nodes|, i requires 0 <= i < |nodes| => nodes[i].term)
  }

  function Logs(nodes: seq<Node>): (r: seq<seq<Entry>>)
    ensures |r| == |nodes| && forall i :: 0 <= i < |r| ==> r[i] == nodes[i].log.entries
  {
    seq(|nodes|, i requires 0 <= i < |nodes| => nodes[i].log.entries)
  }

  function CoreOf(g: Group): Core {
    Core(Terms(g.nodes), Logs(g.nodes), g.record.h)
  }

  //
  // Servers
  //

  ghost predicate ShapeOk(n: Node, i: nat, size: nat) {
    && n.id == i
    && n.servers == Ids(size)
    && Fixed(n)
    && n.log.start == 1
    && n.Retains()
    && !n.transferring
    && |n.peers| == |Others(size, i)|
    && forall k :: 0 <= k < |n.peers| ==> n.peers[k].id == Others(size, i)[k]
  }

  /** The vote a server remembers is the one recorded for it. */
  ghost predicate VoteMatches(n: Node, h: History, size: nat) {
    var slot := Slot(n.term, n.id);
    && (size > 1 && slot in h.votes ==> n.votedFor == Some(h.votes[slot].candidate))
    && (n.votedFor.Some? ==> slot in h.votes && h.votes[slot].candidate == n.votedFor.value)
  }

  /** A candidate has made its bid with its present log, and has not been elected yet. */
  ghost predicate CandidateOk(n: Node, h: History, size: nat) {
    n.role == Candidate ==>
      var slot := Slot(n.term, n.id);
      && size > 1
      && slot in h.bids && h.bids[slot] == n.log.entries
      && (n.term in h.victories ==> h.victories[n.term].leader != n.id)
  }

  ghost predicate AskedPreVote(net: set<Packet>, id: nat, term: nat) {
    exists p :: p in net && p.AskVote? && p.vote.serverId == id && p.vote.term == term && p.vote.preVote
  }

  /** Those among the servers heard from whose recorded vote is for this one. */
  ghost function Counted(n: Node, h: History): set<nat> {
    set v | v in n.election.voted && Slot(n.term, v) in h.votes
            && h.votes[Slot(n.term, v)].candidate == n.id
  }

  /** A candidate that counts votes counts real ones only. */
  ghost predicate CountOk(n: Node, h: History, net: set<Packet>) {
    n.role == Candidate && !n.election.preVote && !n.election.completed ==>
      && !AskedPreVote(net, n.id, n.term)
      && n.election.granted <= |Counted(n, h)|
  }

  predicate LeaderIdle(n: Node) {
    n.role == Leader ==> n.election.completed && !n.election.timerStarted
  }

  ghost predicate NodeOk(g: Group, i: nat)
    requires i < |g.nodes|
  {
    var n := g.nodes[i];
    && ShapeOk(n, i, |g.nodes|)
    && VoteMatches(n, g.record.h, |g.nodes|)
    && CandidateOk(n, g.record.h, |g.nodes|)
    && CountOk(n, g.record.h, g.net)
    && LeaderIdle(n)
  }

  /** A leader's log is the log of its term, and each peer's next index lies within it. */
  ghost predicate LeaderOk(n: Node, r: Record) {
    n.role == Leader ==>
      && r.h.LedBy(n.term, n.id)
      && r.h.led[n.term] == n.log.entries
      && (forall k :: 0 <= k < |n.peers| ==>
            n.peers[k].started && 1 <= n.peers[k].nextIndex <= n.log.End())
      && (n.term in r.freshTerms ==> forall k :: 0 <= k < |n.peers| ==> MatchOk(n, r.h, k))
  }

  /** In a fresh tenure, what a peer matched it acknowledged in this term. */
  ghost predicate MatchOk(n: Node, h: History, k: nat)
    requires k < |n.peers|
  {
    n.peers[k].matched > 0 ==> Ack(n.term, n.peers[k].id, n.peers[k].matched) in h.acks
  }

  //
  // Packets
  //

  ghost predicate PacketOk(g: Group, p: Packet) {
    && p.From() < |g.nodes| && p.to < |g.nodes| && p.From() != p.to
    && match p
       case AskVote(_, vote) => AskVoteOk(g, vote)
       case AnswerVote(to, ballot) => AnswerVoteOk(g, to, ballot)
       case AskAppend(_, append) =>
         append.transfer.None? && SameServers(Ids(|g.nodes|), append.entries)
       case AnswerAppend(_, answer) =>
         && answer.term <= g.nodes[answer.serverId].term
         && (answer.accepted ==> answer.nextIndex >= 1)
         && !answer.transferRequired
  }

  ghost predicate AskVoteOk(g: Group, vote: VoteRequest)
    requires vote.serverId < |g.nodes|
  {
    var slot := Slot(vote.term, vote.serverId);
    && vote.term <= g.nodes[vote.serverId].term
    && (!vote.preVote ==>
          && slot in g.record.h.bids
          && vote.lastLogTerm == TermOfLast(g.record.h.bids[slot])
          && vote.lastLogIndex == |g.record.h.bids[slot]|)
  }

  ghost predicate AnswerVoteOk(g: Group, to: Id, ballot: VoteResponse)
    requires ballot.serverId < |g.nodes|
  {
    var slot := Slot(ballot.term, ballot.serverId);
    && ballot.term <= g.nodes[ballot.serverId].term
    && (ballot.accepted ==>
          || (slot in g.record.h.votes && g.record.h.votes[slot].candidate == to)
          || AskedPreVote(g.net, to, ballot.term))
  }

  ghost predicate PacketLogOk(h: History, p: Packet) {
    match p
    case AskVote(_, _) => true
    case AnswerVote(_, _) => true
    case AskAppend(_, append) => AppendOk(h, append)
    case AnswerAppend(to, answer) => AnswerOk(h, to, answer)
  }

  /** An append request holds a piece of the log of its term's leader. */
  ghost predicate AppendOk(h: History, append: AppendRequest) {
    && h.LedBy(append.term, append.serverId)
    && append.lastLogIndex + |append.entries| <= |h.led[append.term]|
    && append.entries
       == h.led[append.term][append.lastLogIndex..append.lastLogIndex + |append.entries|]
    && append.lastLogTerm == TermOfLast(h.led[append.term][..append.lastLogIndex])
  }

  ghost predicate AnswerOk(h: History, to: Id, answer: AppendResponse) {
    && (answer.accepted ==>
          && answer.nextIndex >= 1
          && h.LedBy(answer.term, to)
          && answer.nextIndex - 1 <= |h.led[answer.term]|
          && Ack(answer.term, answer.serverId, answer.nextIndex - 1) in h.acks)
    && answer.nextIndex >= 1
  }

  //
  // Commits
  //

  ghost function Holders(h: History, term: nat, index: nat, size: nat): set<nat>
    requires h.victories.Keys == h.led.Keys
  {
    set j | j in Everyone(size) && Held(h, term, j, index)
  }

  /** A majority held the leader's log up to this index, which is an entry of the leader's term. */
  ghost predicate CommitmentOk(h: History, c: Commitment, size: nat)
    requires h.victories.Keys == h.led.Keys
  {
    && c.term in h.led
    && 1 <= c.index <= |h.led[c.term]|
    && h.led[c.term][c.index - 1].term == c.term
    && Majority(Holders(h, c.term, c.index, size), size)
  }

  //
  // All together
  //

  ghost predicate AlwaysInv(g: Group) {
    && ElectionInv(CoreOf(g))
    && (forall i: nat {:trigger NodeOk(g, i)} :: i < |g.nodes| ==> NodeOk(g, i))
    && (forall p {:trigger PacketOk(g, p)} :: p in g.net ==> PacketOk(g, p))
    && g.record.freshTerms <= g.record.h.victories.Keys
    && (forall i :: ElectionByLeader(i) !in g.aborts)
  }

  ghost predicate VotedInv(g: Group)
    requires ElectionInv(CoreOf(g))
  {
    && LogInv(CoreOf(g))
    && (forall i: nat {:trigger LeaderOk(g.nodes[i], g.record)} :: i < |g.nodes| ==> LeaderOk(g.nodes[i], g.record))
    && (forall p {:trigger PacketLogOk(g.record.h, p)} :: p in g.net ==> PacketLogOk(g.record.h, p))
    && (forall c {:trigger CommitmentOk(g.record.h, c, |g.nodes|)} ::
          c in g.record.commits ==> CommitmentOk(g.record.h, c, |g.nodes|))
    && g.aborts == {}
  }

  ghost predicate Inv(g: Group) {
    && AlwaysInv(g)
    && (!g.record.unvoted ==> VotedInv(g))
  }

  /** The invariant holds after a step, which only adds to the record. */
  ghost predicate Advances(g: Group, g': Group) {
    && Inv(g')
    && |g'.nodes| == |g.nodes|
    && (forall i :: 0 <= i < |g.nodes| ==> g.nodes[i].term <= g'.nodes[i].term)
    && Grows(g.record.h, g'.record.h)
    && (g.record.unvoted ==> g'.record.unvoted)
    && (!g'.record.unvoted ==> LedGrows(g.record.h, g'.record.h))
  }

  //
  // What a step of one server leaves alone
  //

  ghost predicate OnlyBy(h: History, h': History, i: nat) {
    && Grows(h, h')
    && (forall s :: s in h'.votes && s !in h.votes ==> s.server == i)
    && (forall t :: t in h'.victories && t !in h.victories ==> h'.victories[t].leader == i)
    && (forall t :: t in h.led && h'.led[t] != h.led[t] ==> t in h.victories && h.victories[t].leader == i)
  }

  ghost predicate Local(g: Group, g': Group, i: nat) {
    && |g'.nodes| == |g.nodes| && i < |g.nodes|
    && (forall j :: 0 <= j < |g.nodes| && j != i ==> g'.nodes[j] == g.nodes[j])
    && g.nodes[i].term <= g'.nodes[i].term
    && g.net <= g'.net
    && (forall p :: p in g'.net && p !in g.net ==> p.From() == i)
    && OnlyBy(g.record.h, g'.record.h, i)
    && g.record.freshTerms <= g'.record.freshTerms
    && (forall t :: t in g'.record.freshTerms && t !in g.record.freshTerms ==>
          t in g'.record.h.victories && g'.record.h.victories[t].leader == i)
  }

  lemma CountedGrows(n: Node, h: History, h': History)
    requires Grows(h, h')
    ensures |Counted(n, h)| <= |Counted(n, h')|
  {
    SubsetCounted(Counted(n, h), Counted(n, h'));
  }

  lemma OtherNodeStaysOk(g: Group, g': Group, i: nat, j: nat)
    requires Local(g, g', i) && j < |g.nodes| && j != i && NodeOk(g, j)
    ensures NodeOk(g', j)
  {
    var n := g.nodes[j];
    var h, h' := g.record.h, g'.record.h;
    CountedGrows(n, h, h');
    if n.role == Candidate && n.term in h'.victories && n.term !in h.victories {
      assert h'.victories[n.term].leader == i;
    }
    assert AskedPreVote(g'.net, j, n.term) ==> AskedPreVote(g.net, j, n.term);
  }

  lemma OtherLeaderStaysOk(g: Group, g': Group, i: nat, j: nat)
    requires Local(g, g', i) && j < |g.nodes| && j != i && LeaderOk(g.nodes[j], g.record)
    requires NodeOk(g, j) && g.record.h.victories.Keys == g.record.h.led.Keys
    ensures LeaderOk(g'.nodes[j], g'.record)
  {
    var n := g.nodes[j];
    if n.role == Leader {
      assert g.record.h.victories[n.term].leader == j;
      if n.term in g'.record.freshTerms {
        forall k: nat | k < |n.peers| ensures MatchOk(n, g'.record.h, k) {
          assert MatchOk(n, g.record.h, k);
        }
      }
    }
  }

  lemma PacketStaysOk(g: Group, g': Group, i: nat, p: Packet)
    requires Local(g, g', i) && PacketOk(g, p)
    ensures PacketOk(g', p)
  {
    if p.AnswerVote? {
      assert AskedPreVote(g.net, p.to, p.ballot.term) ==> AskedPreVote(g'.net, p.to, p.ballot.term);
    }
  }

  lemma PacketLogStaysOk(h: History, h': History, p: Packet)
    requires Grows(h, h') && LedGrows(h, h') && PacketLogOk(h, p)
    ensures PacketLogOk(h', p)
  {
    if p.AskAppend? {
      var led, led' := h.led[p.append.term], h'.led[p.append.term];
      assert led <= led';
      assert led'[..p.append.lastLogIndex] == led[..p.append.lastLogIndex];
    }
  }

  lemma CommitmentStaysOk(h: History, h': History, c: Commitment, size: nat)
    requires Grows(h, h') && LedGrows(h, h')
    requires h.victories.Keys == h.led.Keys && h'.victories.Keys == h'.led.Keys
    requires CommitmentOk(h, c, size)
    ensures CommitmentOk(h', c, size)
  {
    assert h.led[c.term] <= h'.led[c.term];
    SubsetCounted(Holders(h, c.term, c.index, size), Holders(h', c.term, c.index, size));
  }

  /** The invariant after a step, from what concerns the stepping server and its packets. */
  lemma Assemble(g: Group, g': Group, i: nat)
    requires Inv(g) && Local(g, g', i)
    requires ElectionInv(CoreOf(g'))
    requires NodeOk(g', i)
    requires forall p {:trigger PacketOk(g', p)} :: p in g'.net && p !in g.net ==> PacketOk(g', p)
    requires g'.aborts == g.aborts
    requires !g'.record.unvoted ==> !g.record.unvoted
    requires !g'.record.unvoted ==>
      && LogInv(CoreOf(g'))
      && LedGrows(g.record.h, g'.record.h)
      && LeaderOk(g'.nodes[i], g'.record)
      && (forall p {:trigger PacketLogOk(g'.record.h, p)} ::
            p in g'.net && p !in g.net ==> PacketLogOk(g'.record.h, p))
      && (forall c {:trigger CommitmentOk(g'.record.h, c, |g.nodes|)} ::
            c in g'.record.commits && c !in g.record.commits
            ==> CommitmentOk(g'.record.h, c, |g.nodes|))
    ensures Advances(g, g')
  {
    var h, h' := g.record.h, g'.record.h;
    forall j: nat | j < |g'.nodes| ensures NodeOk(g', j) {
      if j != i { OtherNodeStaysOk(g, g', i, j); }
    }
    forall p | p in g'.net ensures PacketOk(g', p) {
      if p in g.net { PacketStaysOk(g, g', i, p); }
    }
    if !g'.record.unvoted {
      AssembleVoted(g, g', i);
    }
  }

  lemma AssembleVoted(g: Group, g': Group, i: nat)
    requires AlwaysInv(g) && VotedInv(g) && Local(g, g', i)
    requires ElectionInv(CoreOf(g')) && g'.aborts == g.aborts
    requires LogInv(CoreOf(g')) && LedGrows(g.record.h, g'.record.h)
    requires LeaderOk(g'.nodes[i], g'.record)
    requires forall p {:trigger PacketLogOk(g'.record.h, p)} ::
      p in g'.net && p !in g.net ==> PacketLogOk(g'.record.h, p)
    requires forall c {:trigger CommitmentOk(g'.record.h, c, |g.nodes|)} ::
      c in g'.record.commits && c !in g.record.commits ==> CommitmentOk(g'.record.h, c, |g.nodes|)
    ensures VotedInv(g')
  {
    var h, h' := g.record.h, g'.record.h;
    forall j: nat | j < |g'.nodes| ensures LeaderOk(g'.nodes[j], g'.record) {
      if j != i {
        assert NodeOk(g, j) && LeaderOk(g.nodes[j], g.record);
        OtherLeaderStaysOk(g, g', i, j);
      }
    }
    forall p | p in g'.net ensures PacketLogOk(h', p) {
      if p in g.net {
        assert PacketLogOk(h, p);
        PacketLogStaysOk(h, h', p);
      }
    }
    forall c | c in g'.record.commits ensures CommitmentOk(h', c, |g.nodes|) {
      if c in g.record.commits {
        assert CommitmentOk(h, c, |g.nodes|);
        CommitmentStaysOk(h, h', c, |g.nodes|);
      }
    }
  }

  //
  // The start
  //

  lemma InitialInv(size: nat)
    requires size >= 1
    ensures Inv(NewGroup(size))
  {
    forall i: nat | i < size ensures NodeOk(NewGroup(size), i) {
      InitialPeersOthers(size, i);
      assert Ids(size)[i] == i;
    }
  }

  /** A server starts with a new peer for each other server, in the order of the configuration. */
  lemma {:induction false} InitialPeersOthers(size: nat, self: nat)
    ensures var peers := InitialPeers(Ids(size), self);
      && |peers| == |Others(size, self)|
      && forall k :: 0 <= k < |peers| ==> peers[k] == Peer(Others(size, self)[k], 1, 0, 1, false)
  {
    if size > 0 {
      InitialPeersOthers(size - 1, self);
      assert Ids(size) == Ids(size - 1) + [size - 1];
      InitialPeersMore(Ids(size - 1), size - 1, self);
    }
  }

  lemma {:induction false} InitialPeersMore(servers: seq<Id>, id: Id, self: Id)
    ensures InitialPeers(servers + [id], self)
      == InitialPeers(servers, self) + if id == self then [] else [Peer(id, 1, 0, 1, false)]
  {
    if servers == [] {
      assert [] + [id] == [id] && [id][1..] == [];
    } else {
      InitialPeersMore(servers[1..], id, self);
      assert (servers + [id])[1..] == servers[1..] + [id];
    }
  }
}
