/**
 Every step of a group keeps its invariant.
 */
module GroupSteps {
  import opened Types
  import opened Log
  import opened Handlers
  import opened NodeFacts
  import opened Quorums
  import opened Core
  import opened CoreActions
  import opened Group
  import opened GroupInv
  import opened GroupCore
  import Medians

  /** What a handler leaves of a server whatever it does to its election, peers and commits. */
  predicate Kept(n: Node, n': Node) {
    && n'.id == n.id && n'.servers == n.servers && n'.catchingUp == n.catchingUp
    && n'.transferring == n.transferring && n'.log.start == n.log.start
    && n'.Retains()
    && |n'.peers| == |n.peers|
    && forall k :: 0 <= k < |n.peers| ==> n'.peers[k].id == n.peers[k].id
  }

  lemma KeptShape(n: Node, n': Node, i: nat, size: nat)
    requires ShapeOk(n, i, size) && Kept(n, n') && SameServers(n.servers, n'.log.entries)
    ensures ShapeOk(n', i, size)
  {}

  //
  // Steps that leave the log, and leave the term or make a follower of a later one
  //

  predicate Steady(n: Node, n': Node) {
    && Kept(n, n')
    && n'.log == n.log
    && if n'.term == n.term then
         && n'.votedFor == n.votedFor
         && (n'.role == Leader ==> n.role == Leader)
         && (n'.role == Candidate ==> n.role == Candidate)
       else
         n'.term > n.term && n'.votedFor.None? && n'.role == Follower
  }

  lemma SteadyHistory(h: History, n: Node, n': Node, size: nat)
    requires Steady(n, n')
    ensures ObserveHistory(h, n, n', size) == ObserveLead(h, n, n')
    ensures n'.role != Leader ==> ObserveHistory(h, n, n', size) == h
  {}

  lemma SteadyCore(g: Group, g': Group, i: nat, n': Node)
    requires Inv(g) && i < |g.nodes| && NodeOk(g, i) && Steady(g.nodes[i], n')
    requires Stepped(g, g', i, n', ObserveHistory(g.record.h, g.nodes[i], n', |g.nodes|))
    ensures CoreKept(g, g', i)
  {
    SteadyHistory(g.record.h, g.nodes[i], n', |g.nodes|);
    if n'.role == Leader {
      assert n'.log.entries == g.nodes[i].log.entries + [];
      LeadCore(g, g', i, n', []);
    } else {
      TermCore(g, g', i, n');
    }
  }

  /** The leader's peers, after a step that leaves the leader's term and log. */
  ghost predicate PeersOk(n: Node, r: Record) {
    n.role == Leader ==>
      && (forall k :: 0 <= k < |n.peers| ==>
            n.peers[k].started && 1 <= n.peers[k].nextIndex <= n.log.End())
      && (n.term in r.freshTerms ==> forall k :: 0 <= k < |n.peers| ==> MatchOk(n, r.h, k))
  }

  lemma SteadyStep(g: Group, g': Group, i: nat, n': Node, sent: set<Packet>)
    requires Inv(g) && i < |g.nodes| && NodeOk(g, i) && Steady(g.nodes[i], n')
    requires var u := Update(g, i, n', sent); g' == u.(record := u.record.(commits := g'.record.commits))
    requires forall p :: p in sent ==> p.From() == i && PacketOk(g', p)
    requires !g'.record.unvoted ==> forall p :: p in sent ==> PacketLogOk(g'.record.h, p)
    requires CountOk(n', g'.record.h, g'.net) && LeaderIdle(n')
    requires !g'.record.unvoted ==> PeersOk(n', g'.record)
    requires !g'.record.unvoted ==> forall c {:trigger CommitmentOk(g'.record.h, c, |g.nodes|)} ::
      c in g'.record.commits && c !in g.record.commits ==> CommitmentOk(g'.record.h, c, |g.nodes|)
    ensures Advances(g, g')
  {
    var n := g.nodes[i];
    SteadyHistory(g.record.h, n, n', |g.nodes|);
    assert !g'.record.unvoted ==> !g.record.unvoted;
    SteadyCore(g, g', i, n');
    KeptShape(n, n', i, |g.nodes|);
    assert Local(g, g', i);
    assert VoteMatches(n', g'.record.h, |g.nodes|) by {
      var slot := Slot(n'.term, i);
      assert slot in g.record.h.votes ==> VoteOk(CoreOf(g), slot);
    }
    assert NodeOk(g', i);
    if !g'.record.unvoted {
      assert LeaderOk(n, g.record);
      assert LeaderOk(n', g'.record);
    }
    Assemble(g, g', i);
  }

  lemma LockStep(g: Group, i: Id, locked: bool)
    requires Inv(g) && Enabled(g, LockCommits(i, locked))
    ensures Advances(g, Next(g, LockCommits(i, locked)))
  {
    var g' := Next(g, LockCommits(i, locked));
    assert NodeOk(g, i);
    var n' := g.nodes[i].(commitsLocked := locked);
    SteadyHistory(g.record.h, g.nodes[i], n', |g.nodes|);
    assert g'.net == g.net;
    assert g'.record.h == ObserveHistory(g.record.h, g.nodes[i], n', |g.nodes|);
    if !g.record.unvoted {
      SamePeersOk(g.nodes[i], n', g.record, g'.record);
    }
    SameCountOk(g.nodes[i], n', g.record.h, g'.record.h, g.net);
    SteadyStep(g, g', i, n', {});
  }

  lemma SamePeersOk(n: Node, n': Node, r: Record, r': Record)
    requires LeaderOk(n, r) && n'.peers == n.peers && n'.term == n.term && n'.log == n.log
    requires n'.role == Leader ==> n.role == Leader
    requires r.h.acks <= r'.h.acks && r'.freshTerms == r.freshTerms
    ensures PeersOk(n', r')
  {
    if n'.role == Leader && n'.term in r'.freshTerms {
      forall k: nat | k < |n'.peers| ensures MatchOk(n', r'.h, k) {
        assert MatchOk(n, r.h, k);
      }
    }
  }

  lemma SameCountOk(n: Node, n': Node, h: History, h': History, net: set<Packet>)
    requires CountOk(n, h, net) && n'.election == n.election && n'.term == n.term && n'.id == n.id
    requires n'.role == Candidate ==> n.role == Candidate
    requires h'.votes == h.votes
    ensures CountOk(n', h', net)
  {
    assert Counted(n', h') == Counted(n, h);
  }

  lemma GiveUpStep(g: Group, i: Id, lock: bool)
    requires Inv(g) && Enabled(g, GiveUp(i, lock))
    ensures Advances(g, Next(g, GiveUp(i, lock)))
  {
    var g' := Next(g, GiveUp(i, lock));
    assert NodeOk(g, i);
    var n' := StepDown(g.nodes[i], lock);
    StepDownFixed(g.nodes[i], lock);
    SteadyHistory(g.record.h, g.nodes[i], n', |g.nodes|);
    SteadyStep(g, g', i, n', {});
  }

  //
  // The election timer
  //

  lemma TimeoutStep(g: Group, i: Id)
    requires Inv(g) && Enabled(g, Timeout(i))
    ensures Advances(g, Next(g, Timeout(i)))
  {
    var n := g.nodes[i];
    assert NodeOk(g, i);
    assert n.role != Leader;
    if n.election.locked {
      SteadyHistory(g.record.h, n, n, |g.nodes|);
      SameCountOk(n, n, g.record.h, g.record.h, g.net);
      SteadyStep(g, Next(g, Timeout(i)), i, n, {});
    } else if n.peers != [] {
      PreVoteStep(g, i);
    } else {
      AloneStep(g, i);
    }
  }

  lemma PreVoteStep(g: Group, i: Id)
    requires Inv(g) && Enabled(g, Timeout(i)) && NodeOk(g, i)
    requires g.nodes[i].role != Leader && !g.nodes[i].election.locked && g.nodes[i].peers != []
    ensures Advances(g, Next(g, Timeout(i)))
  {
    var n := g.nodes[i];
    var effect := RequestElection(n);
    var sent := ToAll(n.peers, effect.broadcast);
    var g' := Next(g, Timeout(i));
    SteadyHistory(g.record.h, n, effect.node, |g.nodes|);
    forall p | p in sent ensures p.From() == i && PacketOk(g', p) {
      SentToPeer(n, i, |g.nodes|, p.to);
    }
    SteadyStep(g, g', i, effect.node, sent);
  }

  /** A server sends to the others only. */
  lemma SentToPeer(n: Node, i: nat, size: nat, to: Id)
    requires ShapeOk(n, i, size) && exists k :: 0 <= k < |n.peers| && n.peers[k].id == to
    ensures to < size && to != i
  {
    var k :| 0 <= k < |n.peers| && n.peers[k].id == to;
    assert Others(size, i)[k] in Others(size, i);
  }

  lemma AloneStep(g: Group, i: Id)
    requires Inv(g) && Enabled(g, Timeout(i)) && NodeOk(g, i)
    requires g.nodes[i].role != Leader && !g.nodes[i].election.locked && g.nodes[i].peers == []
    ensures Advances(g, Next(g, Timeout(i)))
  {
    var n := g.nodes[i];
    var n1 := ClearElection(RestartTimer(n));
    BecomeCandidateAlone(n1);
    var n' := RequestElection(n).node;
    var g' := Next(g, Timeout(i));
    assert g' == Update(g, i, n', {});
    AloneHandled(g, g', i, n');
  }

  /** A server alone in its group bids, votes for itself and leads, all at once. */
  lemma AloneHandled(g: Group, g': Group, i: Id, n': Node)
    requires Inv(g) && i < |g.nodes| && NodeOk(g, i) && g' == Update(g, i, n', {})
    requires g.nodes[i].role != Leader && g.nodes[i].peers == []
    requires var n := g.nodes[i]; LeaderFrom(
      n.(term := n.term + 1, votedFor := None, role := Candidate,
         election := Election([], 0, false, false, true, n.election.locked, [])), n')
    requires Fixed(n')
    ensures Advances(g, g')
  {
    var n := g.nodes[i];
    assert |g.nodes| == 1 && i == 0;
    var entries := n'.log.entries[|n.log.entries|..];
    assert n'.log.entries == n.log.entries + entries;
    AloneHistory(g.record.h, n, n');
    AloneCore(g, g', n', entries);
    AloneNodeOk(g, g', n');
    AloneAssembled(g, g', n');
  }

  lemma AloneAssembled(g: Group, g': Group, n': Node)
    requires Inv(g) && |g.nodes| == 1 && g' == Update(g, 0, n', {}) && n'.term >= g.nodes[0].term
    requires CoreKept(g, g', 0) && NodeOk(g', 0) && n'.peers == [] && n'.id == 0
    requires g'.record.h.LedBy(n'.term, 0) && g'.record.h.led[n'.term] == n'.log.entries
    ensures Advances(g, g')
  {
    assert Local(g, g', 0);
    Assemble(g, g', 0);
  }

  lemma AloneNodeOk(g: Group, g': Group, n': Node)
    requires |g.nodes| == 1 && NodeOk(g, 0) && g'.nodes == [n']
    requires Kept(g.nodes[0], n') && Fixed(n') && n'.votedFor.None? && n'.role == Leader && LeaderIdle(n')
    ensures NodeOk(g', 0)
  {
    KeptShape(g.nodes[0], n', 0, 1);
  }

  lemma AloneHistory(h: History, n: Node, n': Node)
    requires n.role == Follower && n.peers == [] && n'.term == n.term + 1 && n'.role == Leader
    ensures var slot := Slot(n'.term, n.id);
      ObserveHistory(h, n, n', 1)
      == h.Bid(slot, n.log.entries).Win(slot, n.log.entries, 1).Lead(n'.term, n'.log.entries)
  {}

  lemma AloneCanWin(c: Core)
    requires ElectionInv(c) && |c.term| == 1
    ensures CanWin(Bid(c, 0), 0)
  {
    var c1 := Bid(c, 0);
    assert c1.term[0] in c.h.victories ==> VictoryOk(c.h, c1.term[0], 1);
    assert c1.h.Voters(c1.term[0], 0, 1) == {0};
  }

  lemma AloneCore(g: Group, g': Group, n': Node, entries: seq<Entry>)
    requires ElectionInv(CoreOf(g)) && (!g.record.unvoted ==> LogInv(CoreOf(g))) && |g.nodes| == 1
    requires n'.log.entries == g.nodes[0].log.entries + entries
    requires n'.term == g.nodes[0].term + 1
    requires var slot := Slot(n'.term, 0); var log := g.nodes[0].log.entries;
      Stepped(g, g', 0, n', g.record.h.Bid(slot, log).Win(slot, log, 1).Lead(n'.term, n'.log.entries))
    requires forall k :: 0 <= k < |entries| ==> entries[k].term == n'.term
    ensures CoreKept(g, g', 0)
    ensures g'.record.h.LedBy(n'.term, 0) && g'.record.h.led[n'.term] == n'.log.entries
  {
    var c := CoreOf(g);
    CoreUpdated(g, g', 0, n', g'.record.h);
    assert CoreOf(g') == Lead(Win(Bid(c, 0), 0), 0, entries);
    BidsAndWins(c, entries);
  }

  lemma BidsAndWins(c: Core, entries: seq<Entry>)
    requires ElectionInv(c) && |c.term| == 1
    requires forall k :: 0 <= k < |entries| ==> entries[k].term == c.term[0] + 1
    ensures var c' := Lead(Win(Bid(c, 0), 0), 0, entries);
      && ElectionInv(c') && OnlyBy(c.h, c'.h, 0)
      && (LogInv(c) ==> LogInv(c') && LedGrows(c.h, c'.h))
  {
    var c1 := Bid(c, 0);
    BidKeepsElections(c, 0);
    AloneCanWin(c);
    if LogInv(c) {
      BidKeepsLogs(c, 0);
    }
    WinCore(c1, Lead(Win(c1, 0), 0, entries), 0, entries);
  }

  //
  // Vote requests
  //

  lemma VoteRequestStep(g: Group, p: Packet, open: bool)
    requires Inv(g) && Enabled(g, ReceiveVoteRequest(p, open))
    ensures Advances(g, Next(g, ReceiveVoteRequest(p, open)))
  {
    assert NodeOk(g, p.to) && PacketOk(g, p);
    var (n', response) := HandleVoteRequest(g.nodes[p.to], p.vote, open);
    VoteRequestEffect(g.nodes[p.to], p.vote, open);
    var g' := Next(g, ReceiveVoteRequest(p, open));
    if response.accepted && !p.vote.preVote {
      GrantStep(g, g', p, n', response);
    } else {
      RefuseStep(g, g', p, n', response);
    }
  }

  ghost predicate VoteRequestHandled(g: Group, g': Group, p: Packet, n': Node, response: VoteResponse) {
    && p in g.net && p.AskVote? && p.to < |g.nodes| && NodeOk(g, p.to) && PacketOk(g, p)
    && n'.log.start >= 1
    && Polled(g.nodes[p.to], p.vote, n', response)
    && var u := Update(g, p.to, n', {AnswerVote(p.vote.serverId, response)});
       g' == u.(record := ObserveVote(u.record, n', p.vote, response))
  }

  lemma RefuseStep(g: Group, g': Group, p: Packet, n': Node, response: VoteResponse)
    requires Inv(g) && VoteRequestHandled(g, g', p, n', response)
    requires !(response.accepted && !p.vote.preVote)
    ensures Advances(g, g')
  {
    var i := p.to;
    var n := g.nodes[i];
    var answer := AnswerVote(p.vote.serverId, response);
    assert Steady(n, n');
    SteadyHistory(g.record.h, n, n', |g.nodes|);
    assert PacketOk(g', answer) by {
      if response.accepted {
        assert p in g'.net;
        assert AskedPreVote(g'.net, p.vote.serverId, response.term);
      }
    }
    RefuseCount(g, i, n', g'.record.h, g'.net);
    if !g'.record.unvoted && n'.term == n.term {
      SamePeersOk(n, n', g.record, g'.record);
    }
    SteadyStep(g, g', i, n', {answer});
  }

  /** Receiving no vote leaves a candidate's count right. */
  lemma RefuseCount(g: Group, i: nat, n': Node, h': History, net': set<Packet>)
    requires i < |g.nodes| && NodeOk(g, i) && n'.id == i
    requires n'.role == Candidate ==>
      n'.term == g.nodes[i].term && n'.election == g.nodes[i].election && g.nodes[i].role == Candidate
    requires Grows(g.record.h, h')
    requires forall q :: q in net' && q !in g.net ==> q.AskVote? ==> !q.vote.preVote
    ensures CountOk(n', h', net')
  {
    var n := g.nodes[i];
    if n'.role == Candidate {
      CountedGrows(n, g.record.h, h');
      assert Counted(n, h') == Counted(n', h');
      assert AskedPreVote(net', i, n.term) ==> AskedPreVote(g.net, i, n.term);
    }
  }

  lemma GrantStep(g: Group, g': Group, p: Packet, n': Node, response: VoteResponse)
    requires Inv(g) && VoteRequestHandled(g, g', p, n', response)
    requires response.accepted && !p.vote.preVote
    ensures Advances(g, g')
  {
    var i := p.to;
    GrantCore(g, g', i, n', p.vote.serverId);
    assert Slot(n'.term, i) in g.record.h.votes ==> VoteOk(CoreOf(g), Slot(n'.term, i));
    GrantNodeOk(g, g', p, n', response);
    GrantLocal(g, g', p, n', response);
    if !g'.record.unvoted {
      assert LeaderOk(g.nodes[i], g.record);
      GrantLeaderOk(g, g', i, n', ObserveHistory(g.record.h, g.nodes[i], n', |g.nodes|),
                    Slot(n'.term, i), p.vote.serverId);
    }
    GrantAssembled(g, g', i, AnswerVote(p.vote.serverId, response));
  }

  lemma GrantAssembled(g: Group, g': Group, i: nat, answer: Packet)
    requires Inv(g) && Local(g, g', i) && CoreKept(g, g', i) && NodeOk(g', i)
    requires g'.net == g.net + {answer} && PacketOk(g', answer) && answer.AnswerVote?
    requires g'.aborts == g.aborts && g'.record.commits == g.record.commits
    requires !g'.record.unvoted ==> !g.record.unvoted && LeaderOk(g'.nodes[i], g'.record)
    ensures Advances(g, g')
  {
    Assemble(g, g', i);
  }

  lemma GrantLocal(g: Group, g': Group, p: Packet, n': Node, response: VoteResponse)
    requires VoteRequestHandled(g, g', p, n', response)
    requires response.accepted && !p.vote.preVote && CoreKept(g, g', p.to)
    ensures Local(g, g', p.to)
  {}

  lemma GrantNodeOk(g: Group, g': Group, p: Packet, n': Node, response: VoteResponse)
    requires VoteRequestHandled(g, g', p, n', response)
    requires response.accepted && !p.vote.preVote
    requires Slot(n'.term, p.to) in g.record.h.votes ==> g.nodes[p.to].term == n'.term
    ensures NodeOk(g', p.to)
    ensures PacketOk(g', AnswerVote(p.vote.serverId, response))
  {
    var i := p.to;
    var n := g.nodes[i];
    var h1 := ObserveHistory(g.record.h, n, n', |g.nodes|);
    assert h1.votes == g.record.h.votes && h1.bids == g.record.h.bids;
    assert n'.role == Candidate ==> n'.term == n.term && h1 == g.record.h;
    RefuseCount(g, i, n', g'.record.h, g'.net);
    KeptShape(n, n', i, |g.nodes|);
  }

  lemma GrantLeaderOk(g: Group, g': Group, i: nat, n': Node, h1: History, slot: Slot, candidate: nat)
    requires i < |g.nodes| && NodeOk(g, i) && LeaderOk(g.nodes[i], g.record)
    requires h1 == ObserveHistory(g.record.h, g.nodes[i], n', |g.nodes|)
    requires g'.record.h == h1.Vote(slot, candidate, n'.log.entries)
    requires g'.record.freshTerms == g.record.freshTerms
    requires n'.id == i && n'.log == g.nodes[i].log
    requires if n'.term == g.nodes[i].term
             then n'.role == g.nodes[i].role && n'.peers == g.nodes[i].peers
             else n'.role == Follower
    ensures LeaderOk(n', g'.record)
  {
    if n'.role == Leader {
      SamePeersOk(g.nodes[i], n', g.record, g'.record);
    }
  }

  lemma GrantCore(g: Group, g': Group, i: nat, n': Node, candidate: nat)
    requires Inv(g) && i < |g.nodes| && NodeOk(g, i)
    requires Kept(g.nodes[i], n') && n'.log == g.nodes[i].log
    requires || (n'.term == g.nodes[i].term && n'.role == g.nodes[i].role)
             || (n'.term > g.nodes[i].term && n'.role == Follower)
    requires Stepped(g, g', i, n', ObserveHistory(g.record.h, g.nodes[i], n', |g.nodes|)
                                     .Vote(Slot(n'.term, i), candidate, n'.log.entries))
    requires var slot := Slot(n'.term, candidate);
      slot in g.record.h.bids && UpToDate(g.record.h.bids[slot], n'.log.entries)
    ensures CoreKept(g, g', i)
  {
    var n := g.nodes[i];
    var h1 := ObserveHistory(g.record.h, n, n', |g.nodes|);
    if n'.role == Leader && g.record.h.LedBy(n.term, i) {
      var g1 := g.(nodes := g.nodes[i := n'], record := g.record.(h := h1));
      assert n'.log.entries == n.log.entries + [];
      LeadCore(g, g1, i, n', []);
      GrantAfterLead(g, g1, g', i, n', candidate);
    } else {
      assert h1 == g.record.h;
      VoteCore(g, g', i, n', candidate);
    }
  }

  lemma GrantAfterLead(g: Group, g1: Group, g': Group, i: nat, n': Node, candidate: nat)
    requires i < |g.nodes| && n'.log == g.nodes[i].log
    requires Stepped(g, g1, i, n', g1.record.h) && CoreKept(g, g1, i)
    requires Stepped(g, g', i, n', g1.record.h.Vote(Slot(n'.term, i), candidate, n'.log.entries))
    requires g1.record.unvoted == g.record.unvoted
    requires CanVote(CoreOf(g1), i, candidate)
    ensures CoreKept(g, g', i)
  {
    var c1 := CoreOf(g1);
    CoreUpdated(g, g1, i, n', g1.record.h);
    CoreUpdated(g, g', i, n', g'.record.h);
    assert CoreOf(g') == Vote(c1, i, candidate);
    VotesAfter(g.record.h, c1, i, candidate);
  }

  lemma VotesAfter(h: History, c: Core, i: nat, candidate: nat)
    requires ElectionInv(c) && i < |c.term| && CanVote(c, i, candidate) && OnlyBy(h, c.h, i)
    ensures var c' := Vote(c, i, candidate);
      && ElectionInv(c') && OnlyBy(h, c'.h, i)
      && (LogInv(c) && LedGrows(h, c.h) ==> LogInv(c') && LedGrows(h, c'.h))
  {
    VoteKeepsElections(c, i, candidate);
    if LogInv(c) {
      VoteKeepsLogs(c, i, candidate);
    }
  }

  //
  // Vote responses
  //

  lemma PeerKnown(n: Node, i: nat, size: nat, id: Id)
    requires ShapeOk(n, i, size) && id < size && id != i
    ensures PeerIndex(n.peers, id) < |n.peers|
  {
    assert id in Others(size, i);
    var k :| 0 <= k < |n.peers| && Others(size, i)[k] == id;
    assert n.peers[k].id == id;
  }

  lemma VoteResponseStep(g: Group, p: Packet)
    requires Inv(g) && Enabled(g, ReceiveVoteResponse(p))
    ensures Advances(g, Next(g, ReceiveVoteResponse(p)))
  {
    var n := g.nodes[p.to];
    assert NodeOk(g, p.to) && PacketOk(g, p);
    PeerKnown(n, p.to, |g.nodes|, p.ballot.serverId);
    var effect := HandlePeerVoteResponse(n, p.ballot.serverId, p.ballot);
    var g' := Next(g, ReceiveVoteResponse(p));
    assert g' == Update(g, p.to, effect.node, ToAll(n.peers, effect.broadcast));
    VoteResponseCases(n, p.ballot);
    if p.ballot.term > n.term {
      CheckTermEffect(n, p.ballot.term);
      HigherTermStep(g, g', p.to, effect.node);
    } else if p.ballot.term < n.term || n.election.completed || p.ballot.serverId in n.election.voted {
      UnchangedStep(g, g', p.to);
    } else {
      TallyEffect(n, p.ballot);
      AfterTally(g, g', p, Tally(n, p.ballot), effect);
    }
  }

  /** A response of another term, or one that comes late or twice, is not counted. */
  lemma VoteResponseCases(n: Node, ballot: VoteResponse)
    requires n.Retains() && PeerIndex(n.peers, ballot.serverId) < |n.peers|
    ensures var effect := HandlePeerVoteResponse(n, ballot.serverId, ballot);
      var n1 := Tally(n, ballot);
      if ballot.term > n.term then effect == Effect(CheckTerm(n, ballot.term).0, None)
      else if ballot.term < n.term || n.election.completed || ballot.serverId in n.election.voted
      then effect == Effect(n, None)
      else effect == if n1.election.granted > (|n1.peers| + 1) / 2
                     then if n1.election.preVote then BecomeCandidate(n1)
                          else Effect(BecomeLeader(n1), None)
                     else Effect(n1, None)
  {}

  /** A response of the term of an election that is not over, from a server not heard from. */
  ghost predicate Tallying(g: Group, p: Packet, n1: Node) {
    && p in g.net && p.AnswerVote? && p.to < |g.nodes| && NodeOk(g, p.to) && PacketOk(g, p)
    && var n := g.nodes[p.to];
    && p.ballot.term == n.term && !n.election.completed && p.ballot.serverId !in n.election.voted
    && n.peers != [] && Tallied(n, p.ballot, n1)
  }

  lemma AfterTally(g: Group, g': Group, p: Packet, n1: Node, effect: Effect)
    requires Inv(g) && Tallying(g, p, n1)
    requires effect == if n1.election.granted > (|n1.peers| + 1) / 2
                       then if n1.election.preVote then BecomeCandidate(n1)
                            else Effect(BecomeLeader(n1), None)
                       else Effect(n1, None)
    requires g' == Update(g, p.to, effect.node, ToAll(g.nodes[p.to].peers, effect.broadcast))
    ensures Advances(g, g')
  {
    if n1.election.granted <= (|n1.peers| + 1) / 2 {
      TalliedStep(g, g', p, n1);
    } else if n1.election.preVote {
      AfterPreVotes(g, g', p, n1, effect);
    } else {
      AfterVotes(g, g', p, n1, effect.node);
    }
  }

  lemma AfterPreVotes(g: Group, g': Group, p: Packet, n1: Node, effect: Effect)
    requires Inv(g) && Tallying(g, p, n1)
    requires n1.election.preVote && effect == BecomeCandidate(n1)
    requires g' == Update(g, p.to, effect.node, ToAll(g.nodes[p.to].peers, effect.broadcast))
    ensures Advances(g, g')
  {
    BecomeCandidateFixed(n1);
    if g.nodes[p.to].role == Candidate {
      TalliedStep(g, g', p, n1);
    } else {
      BidStep(g, g', p, n1, effect);
    }
  }

  lemma AfterVotes(g: Group, g': Group, p: Packet, n1: Node, n': Node)
    requires Inv(g) && Tallying(g, p, n1)
    requires !n1.election.preVote && n1.election.granted > (|n1.peers| + 1) / 2 && n' == BecomeLeader(n1)
    requires g' == Update(g, p.to, n', {})
    ensures Advances(g, g')
  {
    BecomeLeaderFixed(n1);
    if VotePhase(g.nodes[p.to]) {
      WinStep(g, g', p, n1, n');
    } else {
      UnvotedStep(g, g', p.to, n1, n');
    }
  }

  lemma UnchangedStep(g: Group, g': Group, i: nat)
    requires Inv(g) && i < |g.nodes| && g' == Update(g, i, g.nodes[i], {})
    ensures Advances(g, g')
  {
    var n := g.nodes[i];
    assert NodeOk(g, i);
    SteadyHistory(g.record.h, n, n, |g.nodes|);
    SameCountOk(n, n, g.record.h, g'.record.h, g.net);
    assert g'.net == g.net;
    if !g.record.unvoted {
      SamePeersOk(n, n, g.record, g'.record);
    }
    SteadyStep(g, g', i, n, {});
  }

  lemma HigherTermStep(g: Group, g': Group, i: nat, n': Node)
    requires Inv(g) && i < |g.nodes| && g' == Update(g, i, n', {}) && NodeOk(g, i)
    requires var n := g.nodes[i];
      n' == n.(term := n'.term, votedFor := None, role := Follower, peers := n'.peers, election := n'.election)
      && n'.term > n.term && |n'.peers| == |n.peers|
      && forall k :: 0 <= k < |n.peers| ==> n'.peers[k].id == n.peers[k].id
    ensures Advances(g, g')
  {
    SteadyHistory(g.record.h, g.nodes[i], n', |g.nodes|);
    SteadyStep(g, g', i, n', {});
  }

  /** An accepted response of a candidate's term, from a server not heard from, is one more vote. */
  lemma OneMoreVote(g: Group, p: Packet, n1: Node)
    requires p in g.net && p.AnswerVote? && p.to < |g.nodes| && NodeOk(g, p.to) && PacketOk(g, p)
    requires var n := g.nodes[p.to];
      && p.ballot.term == n.term && !n.election.completed && p.ballot.serverId !in n.election.voted
      && n.role == Candidate && !n.election.preVote && Tallied(n, p.ballot, n1)
    ensures n1.election.granted <= |Counted(n1, g.record.h)|
  {
    var n := g.nodes[p.to];
    var before, after := Counted(n, g.record.h), Counted(n1, g.record.h);
    if p.ballot.accepted {
      assert p.ballot.serverId in after && p.ballot.serverId !in before;
      SubsetCounted(before + {p.ballot.serverId}, after);
    } else {
      SubsetCounted(before, after);
    }
  }

  lemma TalliedStep(g: Group, g': Group, p: Packet, n1: Node)
    requires Inv(g) && p in g.net && p.AnswerVote? && p.to < |g.nodes|
    requires NodeOk(g, p.to) && PacketOk(g, p)
    requires var n := g.nodes[p.to];
      && p.ballot.term == n.term && !n.election.completed && p.ballot.serverId !in n.election.voted
      && Tallied(n, p.ballot, n1)
    requires g' == Update(g, p.to, n1, {})
    ensures Advances(g, g')
  {
    var n := g.nodes[p.to];
    SteadyHistory(g.record.h, n, n1, |g.nodes|);
    assert n.role != Leader;
    assert g'.net == g.net && g'.record.h == g.record.h;
    if n1.role == Candidate && !n1.election.preVote && !n1.election.completed {
      OneMoreVote(g, p, n1);
    }
    SteadyStep(g, g', p.to, n1, {});
  }

  lemma BidStep(g: Group, g': Group, p: Packet, n1: Node, effect: Effect)
    requires Inv(g) && p.AnswerVote? && p.to < |g.nodes| && NodeOk(g, p.to)
    requires var n := g.nodes[p.to];
      && n.role != Candidate && !n.election.completed && n.peers != []
      && Tallied(n, p.ballot, n1)
      && CandidateFrom(n1, effect.node)
      && effect.broadcast
         == Some(VoteRequest(n.id, n.term + 1, n.log.LastTerm(), n.log.End() - 1, false))
      && g' == Update(g, p.to, effect.node, ToAll(n.peers, effect.broadcast))
    ensures Advances(g, g')
  {
    AsksForVotes(g, g', p.to, effect.node, effect.broadcast.value);
  }

  /** A server becomes candidate, votes for itself and asks the others. */
  lemma AsksForVotes(g: Group, g': Group, i: nat, n': Node, vote: VoteRequest)
    requires Inv(g) && i < |g.nodes| && NodeOk(g, i)
    requires var n := g.nodes[i];
      && n.role != Candidate && n.peers != []
      && n' == n.(term := n.term + 1, votedFor := Some(n.id), role := Candidate, election := n'.election)
      && n'.election.voted == [i] && n'.election.granted == 1
      && vote == VoteRequest(i, n.term + 1, n.log.LastTerm(), n.log.End() - 1, false)
      && g' == Update(g, i, n', ToAll(n.peers, Some(vote)))
    ensures Advances(g, g')
  {
    var n := g.nodes[i];
    BidObserved(g.record.h, n, n', |g.nodes|);
    BidCore(g, g', i, n');
    BidSent(g, g', i, vote);
    BidNodeOk(g, g', i, n');
    BidAssembled(g, g', i, n', ToAll(n.peers, Some(vote)));
  }

  lemma BidAssembled(g: Group, g': Group, i: nat, n': Node, sent: set<Packet>)
    requires Inv(g) && i < |g.nodes| && g' == Update(g, i, n', sent)
    requires n'.term >= g.nodes[i].term && n'.role == Candidate && g.nodes[i].role != Candidate
    requires CoreKept(g, g', i) && NodeOk(g', i)
    requires forall q :: q in g'.net && q !in g.net ==> PacketOk(g', q) && q.AskVote? && q.From() == i
    ensures Advances(g, g')
  {
    assert Local(g, g', i);
    Assemble(g, g', i);
  }

  lemma BidObserved(h: History, n: Node, n': Node, size: nat)
    requires n'.term == n.term + 1 && n'.role == Candidate
    ensures ObserveHistory(h, n, n', size) == h.Bid(Slot(n'.term, n.id), n.log.entries)
  {}

  /** A new candidate asks each other server for its vote, and never asked for a pre-vote in this term. */
  lemma BidSent(g: Group, g': Group, i: nat, vote: VoteRequest)
    requires AlwaysInv(g) && i < |g.nodes| && NodeOk(g, i) && |g'.nodes| == |g.nodes|
    requires g'.net == g.net + ToAll(g.nodes[i].peers, Some(vote))
    requires var n := g.nodes[i];
      && vote == VoteRequest(i, n.term + 1, n.log.LastTerm(), n.log.End() - 1, false)
      && g'.record.h == g.record.h.Bid(Slot(vote.term, i), n.log.entries)
      && g'.nodes[i].term == vote.term
    ensures forall q :: q in g'.net && q !in g.net ==> PacketOk(g', q) && q.AskVote? && q.From() == i
    ensures !AskedPreVote(g'.net, i, vote.term)
  {
    var n := g.nodes[i];
    forall q | q in g'.net && q !in g.net ensures PacketOk(g', q) && q.AskVote? && q.From() == i {
      SentToPeer(n, i, |g.nodes|, q.to);
    }
    forall q | q in g.net && q.AskVote? && q.vote.serverId == i ensures q.vote.term <= n.term {
      assert PacketOk(g, q);
    }
  }

  lemma BidNodeOk(g: Group, g': Group, i: nat, n': Node)
    requires ElectionInv(CoreOf(g)) && i < |g.nodes| && NodeOk(g, i)
    requires g'.nodes == g.nodes[i := n']
    requires g'.record.h == g.record.h.Bid(Slot(n'.term, i), g.nodes[i].log.entries)
    requires g.nodes[i].peers != [] && !AskedPreVote(g'.net, i, n'.term)
    requires var n := g.nodes[i];
      n' == n.(term := n.term + 1, votedFor := Some(n.id), role := Candidate, election := n'.election)
      && n'.election.voted == [i] && n'.election.granted == 1
    ensures NodeOk(g', i)
  {
    var t := n'.term;
    if t in g.record.h.victories {
      assert VictoryOk(g.record.h, t, |g.nodes|);
      assert g.record.h.victories[t].leader != i;
    }
    assert Counted(n', g'.record.h) == {i};
  }

  lemma WinStep(g: Group, g': Group, p: Packet, n1: Node, n': Node)
    requires Inv(g) && p in g.net && p.AnswerVote? && p.to < |g.nodes|
    requires NodeOk(g, p.to) && PacketOk(g, p)
    requires var n := g.nodes[p.to];
      && p.ballot.term == n.term && !n.election.completed && p.ballot.serverId !in n.election.voted
      && Tallied(n, p.ballot, n1) && n.peers != [] && VotePhase(n)
      && n1.election.granted > (|n.peers| + 1) / 2
    requires LeaderFrom(n1, n') && Fixed(n')
    requires g' == Update(g, p.to, n', {})
    ensures Advances(g, g')
  {
    var i := p.to;
    var n := g.nodes[i];
    OneMoreVote(g, p, n1);
    CanWinNow(CoreOf(g), i, n1, g.record.h);
    WonStep(g, g', i, n', n'.log.entries[|n.log.entries|..]);
  }

  lemma WonStep(g: Group, g': Group, i: nat, n': Node, entries: seq<Entry>)
    requires Inv(g) && i < |g.nodes| && CanWin(CoreOf(g), i) && NodeOk(g, i)
    requires var n := g.nodes[i];
      && n.role == Candidate && VotePhase(n)
      && n'.role == Leader && n'.term == n.term && n'.id == i && n'.votedFor == n.votedFor
      && n'.election.completed && !n'.election.timerStarted
      && n'.peers == StartPeers(n.peers, n'.log.End()) && Kept(n, n') && Fixed(n')
      && n'.log.entries == n.log.entries + entries
      && forall k :: 0 <= k < |entries| ==> entries[k].term == n.term
    requires g' == Update(g, i, n', {})
    ensures Advances(g, g')
  {
    var n := g.nodes[i];
    WinObserved(g.record.h, n, n', |g.nodes|);
    WinHistory(g, g', i, n', entries);
    WinLeads(g.record, n, n', |g.nodes|);
    KeptShape(n, n', i, |g.nodes|);
    WonAssembled(g, g', i, n');
  }

  lemma WonAssembled(g: Group, g': Group, i: nat, n': Node)
    requires Inv(g) && i < |g.nodes| && NodeOk(g, i) && g' == Update(g, i, n', {})
    requires n'.role == Leader && n'.term == g.nodes[i].term && n'.votedFor == g.nodes[i].votedFor
    requires ShapeOk(n', i, |g.nodes|) && LeaderIdle(n') && LeaderOk(n', g'.record) && CoreKept(g, g', i)
    requires g'.record.h.votes == g.record.h.votes && VotePhase(g.nodes[i])
    ensures Advances(g, g')
  {
    assert Local(g, g', i);
    assert NodeOk(g', i);
    Assemble(g, g', i);
  }

  lemma CanWinNow(c: Core, i: nat, n: Node, h: History)
    requires ElectionInv(c) && i < |c.term| && h == c.h
    requires n.id == i && n.term == c.term[i] && n.log.entries == c.log[i] && n.role == Candidate
    requires CandidateOk(n, h, |c.term|)
    requires n.election.granted <= |Counted(n, h)|
    requires n.election.granted > |c.term| / 2
    ensures CanWin(c, i)
  {
    var voters := h.Voters(n.term, i, |c.term|);
    forall v | v in Counted(n, h) ensures v in voters {
      assert VoteOk(c, Slot(n.term, v));
    }
    SubsetCounted(Counted(n, h), voters);
    assert Majority(voters, |c.term|);
    if n.term in h.victories {
      assert VictoryOk(h, n.term, |c.term|);
      var v := MajoritiesMeet(voters, h.victories[n.term].quorum, |c.term|);
      assert false;
    }
  }

  lemma WinHistory(g: Group, g': Group, i: nat, n': Node, entries: seq<Entry>)
    requires ElectionInv(CoreOf(g)) && (!g.record.unvoted ==> LogInv(CoreOf(g)))
    requires i < |g.nodes| && CanWin(CoreOf(g), i) && g.nodes[i].id == i
    requires n'.term == g.nodes[i].term && n'.log.entries == g.nodes[i].log.entries + entries
    requires forall k :: 0 <= k < |entries| ==> entries[k].term == n'.term
    requires Stepped(g, g', i, n',
      g.record.h.Win(Slot(n'.term, i), g.nodes[i].log.entries, |g.nodes|).Lead(n'.term, n'.log.entries))
    ensures CoreKept(g, g', i)
  {
    var c := CoreOf(g);
    CoreUpdated(g, g', i, n', g'.record.h);
    assert CoreOf(g') == Lead(Win(c, i), i, entries);
    WinCore(c, CoreOf(g'), i, entries);
  }

  /** A new leader is recorded as leading its term, and matches nothing if the record says so. */
  lemma WinLeads(r: Record, n: Node, n': Node, size: nat)
    requires n.role == Candidate && VotePhase(n) && n'.role == Leader && n'.term == n.term && n'.id == n.id
    requires n'.peers == StartPeers(n.peers, n'.log.End()) && n'.log.start >= 1
    requires r.freshTerms <= r.h.victories.Keys && n.term !in r.h.victories
    requires ObserveHistory(r.h, n, n', size)
      == r.h.Win(Slot(n.term, n.id), n.log.entries, size).Lead(n.term, n'.log.entries)
    ensures LeaderOk(n', Observe(r, n, n', size))
  {}

  lemma WinObserved(h: History, n: Node, n': Node, size: nat)
    requires n.role == Candidate && VotePhase(n) && n'.term == n.term && n'.role == Leader
    ensures ObserveHistory(h, n, n', size)
      == h.Win(Slot(n.term, n.id), n.log.entries, size).Lead(n.term, n'.log.entries)
  {}

  lemma UnvotedStep(g: Group, g': Group, i: nat, n1: Node, n': Node)
    requires Inv(g) && i < |g.nodes| && NodeOk(g, i)
    requires var n := g.nodes[i];
      n1 == n.(election := n1.election) && n.role != Leader && !VotePhase(n)
    requires LeaderFrom(n1, n') && Fixed(n')
    requires g' == Update(g, i, n', {})
    ensures Advances(g, g')
  {
    var n := g.nodes[i];
    var entries := n'.log.entries[|n.log.entries|..];
    assert n'.log.entries == n.log.entries + entries;
    assert g'.record.h == ObserveLead(g.record.h, n, n');
    LeadCore(g, g', i, n', entries);
    assert Local(g, g', i);
    assert NodeOk(g', i) by {
      KeptShape(n, n', i, |g.nodes|);
    }
    Assemble(g, g', i);
  }

  //
  // Append requests
  //

  lemma SendStep(g: Group, i: Id, peer: nat, gap: nat, batch: nat)
    requires Inv(g) && Enabled(g, SendAppend(i, peer, gap, batch))
    ensures Advances(g, Next(g, SendAppend(i, peer, gap, batch)))
  {
    var n := g.nodes[i];
    assert NodeOk(g, i);
    var g' := Next(g, SendAppend(i, peer, gap, batch));
    assert !g.record.unvoted ==> LeaderOk(n, g.record);
    if CanCreateAppendRequest(n, n.peers[peer]) {
      CreatedPiece(n, n.peers[peer], gap, batch);
      SentStep(g, g', i, peer, CreateAppendRequest(n, n.peers[peer], gap, batch));
    } else {
      AbortStep(g, g', BadNextIndex(i));
    }
  }

  /** An assertion that fails stops a server, which can happen only after an election without votes. */
  lemma AbortStep(g: Group, g': Group, abort: Abort)
    requires Inv(g) && g.record.unvoted && !abort.ElectionByLeader?
    requires g' == g.(aborts := g.aborts + {abort})
    ensures Advances(g, g')
  {
    assert CoreOf(g') == CoreOf(g);
    forall i: nat | i < |g'.nodes| ensures NodeOk(g', i) { assert NodeOk(g, i); }
    forall p | p in g'.net ensures PacketOk(g', p) { assert PacketOk(g, p); }
  }

  /** What a leader puts into a request: entries of its log, and the term of the one before them. */
  predicate PieceOf(n: Node, request: AppendRequest) {
    && request.serverId == n.id && request.term == n.term && request.transfer.None?
    && request.lastLogIndex + |request.entries| <= |n.log.entries|
    && request.entries
       == n.log.entries[request.lastLogIndex..request.lastLogIndex + |request.entries|]
    && request.lastLogTerm == TermOfLast(n.log.entries[..request.lastLogIndex])
  }

  lemma CreatedPiece(n: Node, peer: Peer, gap: nat, batch: nat)
    requires CanCreateAppendRequest(n, peer) && n.log.start == 1
    requires CreateAppendRequest(n, peer, gap, batch).transfer.None?
    ensures PieceOf(n, CreateAppendRequest(n, peer, gap, batch))
  {}

  lemma SentStep(g: Group, g': Group, i: Id, peer: nat, request: AppendRequest)
    requires Inv(g) && i < |g.nodes| && NodeOk(g, i) && g.nodes[i].role == Leader
    requires peer < |g.nodes[i].peers|
    requires PieceOf(g.nodes[i], request)
    requires g' == g.(net := g.net + {AskAppend(g.nodes[i].peers[peer].id, request)})
    ensures Advances(g, g')
  {
    var n := g.nodes[i];
    var p := AskAppend(n.peers[peer].id, request);
    SentToPeer(n, i, |g.nodes|, p.to);
    assert PacketOk(g', p);
    assert CoreOf(g') == CoreOf(g);
    assert Local(g, g', i);
    assert CountOk(n, g.record.h, g'.net);
    assert NodeOk(g', i);
    if !g.record.unvoted {
      assert LeaderOk(n, g.record);
      assert PacketLogOk(g.record.h, p);
    }
    Assemble(g, g', i);
  }

  /** While every leader was voted for, no leader gets a request of its own term. */
  lemma AppendAlwaysAllowed(g: Group, p: Packet)
    requires Inv(g) && !g.record.unvoted && p in g.net && p.AskAppend?
    ensures p.to < |g.nodes| && AppendRequestAllowed(g.nodes[p.to], p.append)
  {
    assert PacketOk(g, p) && PacketLogOk(g.record.h, p);
    assert NodeOk(g, p.to) && LeaderOk(g.nodes[p.to], g.record);
  }

  lemma AppendRequestStep(g: Group, p: Packet)
    requires Inv(g) && Enabled(g, ReceiveAppendRequest(p))
    ensures Advances(g, Next(g, ReceiveAppendRequest(p)))
  {
    var n := g.nodes[p.to];
    assert NodeOk(g, p.to) && PacketOk(g, p);
    var g' := Next(g, ReceiveAppendRequest(p));
    if !g.record.unvoted {
      AppendAlwaysAllowed(g, p);
    }
    if !AppendRequestAllowed(n, p.append) {
      AbortStep(g, g', AppendToLeader(p.to));
    } else {
      assert n.servers[p.append.serverId] == p.append.serverId;
      AppendEffect(n, p.append);
      var (n', response) := HandleAppendRequest(n, p.append);
      var u := Update(g, p.to, n', {AnswerAppend(p.append.serverId, response)});
      assert g' == u.(record := ObserveAck(u.record, n', response));
      if response.accepted {
        AcceptedStep(g, g', p, n', response);
      } else {
        RejectedStep(g, g', p, n', response);
      }
    }
  }

  lemma RejectedStep(g: Group, g': Group, p: Packet, n': Node, response: AppendResponse)
    requires Inv(g) && p in g.net && p.AskAppend? && p.to < |g.nodes|
    requires NodeOk(g, p.to) && PacketOk(g, p)
    requires Rejected(g.nodes[p.to], p.append, n', response)
    requires g' == Update(g, p.to, n', {AnswerAppend(p.append.serverId, response)})
    ensures Advances(g, g')
  {
    var i := p.to;
    var n := g.nodes[i];
    SteadyHistory(g.record.h, n, n', |g.nodes|);
    var answer := AnswerAppend(p.append.serverId, response);
    assert PacketOk(g', answer);
    if !g'.record.unvoted {
      assert LeaderOk(n, g.record);
      if n'.role == Leader {
        SamePeersOk(n, n', g.record, g'.record);
      }
    }
    RefuseCount(g, i, n', g'.record.h, g'.net);
    SteadyStep(g, g', i, n', {answer});
  }

  ghost predicate AppendAccepted(g: Group, g': Group, p: Packet, n': Node, response: AppendResponse) {
    && p in g.net && p.AskAppend? && p.to < |g.nodes| && NodeOk(g, p.to) && PacketOk(g, p)
    && Accepted(g.nodes[p.to], p.append, n', response)
    && var u := Update(g, p.to, n', {AnswerAppend(p.append.serverId, response)});
       g' == u.(record := ObserveAck(u.record, n', response))
  }

  lemma AcceptedStep(g: Group, g': Group, p: Packet, n': Node, response: AppendResponse)
    requires Inv(g) && AppendAccepted(g, g', p, n', response)
    ensures Advances(g, g')
  {
    AcceptedCore(g, g', p, n', response);
    AcceptedNodeOk(g, g', p, n', response);
    AcceptedAssembled(g, g', p.to, AnswerAppend(p.append.serverId, response));
  }

  lemma AcceptedAssembled(g: Group, g': Group, i: nat, answer: Packet)
    requires Inv(g) && Local(g, g', i) && CoreKept(g, g', i) && NodeOk(g', i)
    requires g'.net == g.net + {answer} && PacketOk(g', answer)
    requires g'.aborts == g.aborts && g'.record.commits == g.record.commits
    requires g'.record.unvoted == g.record.unvoted && g'.nodes[i].role != Leader
    requires !g'.record.unvoted ==> PacketLogOk(g'.record.h, answer)
    ensures Advances(g, g')
  {
    Assemble(g, g', i);
  }

  lemma AcceptedCore(g: Group, g': Group, p: Packet, n': Node, response: AppendResponse)
    requires Inv(g) && AppendAccepted(g, g', p, n', response)
    ensures CoreKept(g, g', p.to) && Local(g, g', p.to)
    ensures g'.record.unvoted == g.record.unvoted
    ensures !g'.record.unvoted ==> PacketLogOk(g'.record.h, AnswerAppend(p.append.serverId, response))
    ensures Slot(n'.term, p.to) in g.record.h.votes ==> n'.term == g.nodes[p.to].term
  {
    var i := p.to;
    AcceptedObserved(g, g', p, n', response);
    assert Slot(n'.term, i) in g.record.h.votes ==> VoteOk(CoreOf(g), Slot(n'.term, i));
    if !g'.record.unvoted {
      assert PacketLogOk(g.record.h, p);
      PieceCanBeAccepted(g, p, n'.term);
      AcceptedAnswer(g.record.h, p, n', response);
    }
    AcceptCore(g, g', i, n', p.append.lastLogIndex, p.append.entries);
    AcceptedLocal(g, g', p, n', response);
  }

  /** Accepting a request adds to the record the acknowledgement, and nothing else. */
  lemma AcceptedObserved(g: Group, g': Group, p: Packet, n': Node, response: AppendResponse)
    requires AppendAccepted(g, g', p, n', response)
    ensures Stepped(g, g', p.to, n',
                    g.record.h.Acknowledge(Slot(n'.term, p.to), p.append.lastLogIndex + |p.append.entries|))
    ensures g'.record == g.record.(h := g'.record.h)
  {
    assert ObserveHistory(g.record.h, g.nodes[p.to], n', |g.nodes|) == g.record.h;
  }

  lemma AcceptedLocal(g: Group, g': Group, p: Packet, n': Node, response: AppendResponse)
    requires AppendAccepted(g, g', p, n', response) && OnlyBy(g.record.h, g'.record.h, p.to)
    requires g'.record == g.record.(h := g'.record.h)
    ensures Local(g, g', p.to)
  {}

  lemma AcceptedAnswer(h: History, p: Packet, n': Node, response: AppendResponse)
    requires p.AskAppend? && AppendOk(h, p.append) && response.accepted
    requires n'.term == response.term == p.append.term && response.serverId == n'.id
    requires response.nextIndex == p.append.lastLogIndex + |p.append.entries| + 1
    ensures PacketLogOk(h.Acknowledge(Slot(n'.term, n'.id), response.nextIndex - 1),
                        AnswerAppend(p.append.serverId, response))
  {}

  lemma AcceptedNodeOk(g: Group, g': Group, p: Packet, n': Node, response: AppendResponse)
    requires AppendAccepted(g, g', p, n', response)
    requires Slot(n'.term, p.to) in g.record.h.votes ==> n'.term == g.nodes[p.to].term
    ensures NodeOk(g', p.to) && PacketOk(g', AnswerAppend(p.append.serverId, response))
  {
    assert ObserveHistory(g.record.h, g.nodes[p.to], n', |g.nodes|) == g.record.h;
    KeptShape(g.nodes[p.to], n', p.to, |g.nodes|);
  }

  lemma PieceCanBeAccepted(g: Group, p: Packet, term: nat)
    requires ElectionInv(CoreOf(g)) && p.AskAppend? && p.to < |g.nodes|
    requires AppendOk(g.record.h, p.append) && p.append.term == term
    requires g.nodes[p.to].log.start == 1 && Fits(g.nodes[p.to].log, p.append)
    ensures CanAccept(SetTerm(CoreOf(g), p.to, term), p.to, p.append.lastLogIndex, p.append.entries)
  {}

  //
  // Append responses
  //

  lemma AppendResponseStep(g: Group, p: Packet)
    requires Inv(g) && Enabled(g, ReceiveAppendResponse(p))
    ensures Advances(g, Next(g, ReceiveAppendResponse(p)))
  {
    var i := p.to;
    var n := g.nodes[i];
    assert NodeOk(g, i) && PacketOk(g, p);
    PeerKnown(n, i, |g.nodes|, p.answer.serverId);
    var n' := HandlePeerAppendResponse(n, p.answer.serverId, p.answer).0;
    var u := Update(g, i, n', {});
    var g' := Next(g, ReceiveAppendResponse(p));
    var index := CommitOf(n, p.answer.serverId, p.answer);
    assert g' == u.(record := ObserveCommit(u.record, n, index));
    AppendResponseCases(n, p.answer);
    if p.answer.term > n.term {
      CheckTermEffect(n, p.answer.term);
      HigherTermStep(g, g', i, n');
    } else if p.answer.term < n.term || n.role != Leader {
      UnchangedStep(g, g', i);
    } else if p.answer.accepted {
      MatchedStep(g, g', p, n', index.value);
    } else {
      RewoundStep(g, g', p, n');
    }
  }

  /** A response of another term, or to a server that does not lead, or not of acceptance, commits nothing. */
  lemma AppendResponseCases(n: Node, answer: AppendResponse)
    requires n.Retains() && (answer.accepted ==> answer.nextIndex >= 1)
    requires PeerIndex(n.peers, answer.serverId) < |n.peers|
    ensures var r := HandlePeerAppendResponse(n, answer.serverId, answer).0;
      var index := CommitOf(n, answer.serverId, answer);
      var k := PeerIndex(n.peers, answer.serverId);
      if answer.term > n.term then r == CheckTerm(n, answer.term).0 && index.None?
      else if answer.term < n.term || n.role != Leader then r == n && index.None?
      else if !answer.accepted then r == n.(peers := n.peers[k := Rewind(n.peers[k], answer)]) && index.None?
      else index == Some(Median(Reached(MatchedPeer(n, answer)))) && r == Commit(MatchedPeer(n, answer), index.value)
  {}

  lemma RewoundStep(g: Group, g': Group, p: Packet, n': Node)
    requires Inv(g) && p in g.net && p.AnswerAppend? && p.to < |g.nodes|
    requires NodeOk(g, p.to) && PacketOk(g, p)
    requires var n := g.nodes[p.to]; var k := PeerIndex(n.peers, p.answer.serverId);
      && n.role == Leader && k < |n.peers|
      && n' == n.(peers := n.peers[k := Rewind(n.peers[k], p.answer)])
    requires g' == Update(g, p.to, n', {})
    ensures Advances(g, g')
  {
    var i := p.to;
    var n := g.nodes[i];
    SteadyHistory(g.record.h, n, n', |g.nodes|);
    if !g'.record.unvoted {
      assert LeaderOk(n, g.record) && PacketLogOk(g.record.h, p);
      if n.term in g.record.freshTerms {
        forall k: nat | k < |n'.peers| ensures MatchOk(n', g'.record.h, k) {
          assert MatchOk(n, g.record.h, k);
        }
      }
      assert PeersOk(n', g'.record);
    }
    SteadyStep(g, g', i, n', {});
  }

  /** The leader's state when a peer has matched more. */
  function MatchedPeer(n: Node, response: AppendResponse): Node
    requires PeerIndex(n.peers, response.serverId) < |n.peers| && response.nextIndex >= 1
  {
    var k := PeerIndex(n.peers, response.serverId);
    n.(peers := n.peers[k := n.peers[k].(rewindStep := 1, nextIndex := response.nextIndex,
                                         matched := response.nextIndex - 1)])
  }

  ghost predicate MatchHandled(g: Group, g': Group, p: Packet, n': Node, index: nat) {
    && p in g.net && p.AnswerAppend? && p.to < |g.nodes| && NodeOk(g, p.to) && PacketOk(g, p)
    && p.answer.accepted && p.answer.nextIndex >= 1
    && var n := g.nodes[p.to];
    && p.answer.term == n.term && n.role == Leader
    && PeerIndex(n.peers, p.answer.serverId) < |n.peers|
    && var n1 := MatchedPeer(n, p.answer);
    && n1.log.End() >= 1 && index == Median(Reached(n1))
    && n1.Retains() && n' == Commit(n1, index)
    && var u := Update(g, p.to, n', {});
       g' == u.(record := ObserveCommit(u.record, n, Some(index)))
  }

  lemma MatchedStep(g: Group, g': Group, p: Packet, n': Node, index: nat)
    requires Inv(g) && MatchHandled(g, g', p, n', index)
    ensures Advances(g, g')
  {
    var n := g.nodes[p.to];
    var n1 := MatchedPeer(n, p.answer);
    CommitFixed(n1, index);
    SteadyHistory(g.record.h, n, n', |g.nodes|);
    if !g'.record.unvoted {
      MatchedLeader(g, g', p, n', index);
    }
    SteadyStep(g, g', p.to, n', {});
  }

  lemma MatchedLeader(g: Group, g': Group, p: Packet, n': Node, index: nat)
    requires AlwaysInv(g) && VotedInv(g) && MatchHandled(g, g', p, n', index)
    requires OnlyCommits(MatchedPeer(g.nodes[p.to], p.answer), n')
    ensures PeersOk(n', g'.record)
    ensures forall c {:trigger CommitmentOk(g'.record.h, c, |g.nodes|)} ::
      c in g'.record.commits && c !in g.record.commits ==> CommitmentOk(g'.record.h, c, |g.nodes|)
  {
    var n := g.nodes[p.to];
    var n1 := MatchedPeer(n, p.answer);
    assert LeaderOk(n, g.record) && PacketLogOk(g.record.h, p);
    LeadingHistory(g.record.h, n, n', |g.nodes|);
    MatchedPeersOk(n, n1, g.record, p.answer);
    SamePeersAfterCommit(n1, n', g.record, g'.record);
    MatchedCommitsOk(g, g', p.to, n1, index);
  }

  /** A leader that keeps its log leaves the history as it is. */
  lemma LeadingHistory(h: History, n: Node, n': Node, size: nat)
    requires n.role == Leader && n'.role == Leader && n'.term == n.term && n'.log == n.log
    requires h.LedBy(n.term, n.id) && h.led[n.term] == n.log.entries
    ensures ObserveHistory(h, n, n', size) == h
  {
    assert h.led[n.term := n.log.entries] == h.led;
  }

  lemma MatchedPeersOk(n: Node, n1: Node, r: Record, response: AppendResponse)
    requires LeaderOk(n, r) && n.role == Leader && n.log.start == 1
    requires PeerIndex(n.peers, response.serverId) < |n.peers| && response.accepted
    requires AnswerOk(r.h, n.id, response) && response.term == n.term
    requires n1 == MatchedPeer(n, response)
    ensures PeersOk(n1, r)
  {
    if n.term in r.freshTerms {
      forall k: nat | k < |n1.peers| ensures MatchOk(n1, r.h, k) {
        assert MatchOk(n, r.h, k);
      }
    }
  }

  lemma SamePeersAfterCommit(n1: Node, n': Node, r: Record, r': Record)
    requires PeersOk(n1, r) && OnlyCommits(n1, n')
    requires r.h.acks <= r'.h.acks && r'.freshTerms == r.freshTerms
    ensures PeersOk(n', r')
  {
    if n'.role == Leader && n'.term in r'.freshTerms {
      forall k: nat | k < |n'.peers| ensures MatchOk(n', r'.h, k) {
        assert MatchOk(n1, r.h, k);
      }
    }
  }

  /** The ids of the peers that matched an index. */
  function MatchedIds(peers: seq<Peer>, index: nat): set<Id> {
    if peers == [] then {}
    else (if peers[0].matched >= index then {peers[0].id} else {}) + MatchedIds(peers[1..], index)
  }

  lemma {:induction false} MatchedPeerOf(peers: seq<Peer>, index: nat, id: Id) returns (k: nat)
    requires id in MatchedIds(peers, index)
    ensures k < |peers| && peers[k].id == id && peers[k].matched >= index
  {
    if peers[0].matched >= index && peers[0].id == id {
      k := 0;
    } else {
      k := MatchedPeerOf(peers[1..], index, id);
      k := k + 1;
    }
  }

  lemma {:induction false} MatchedIdsCounted(peers: seq<Peer>, index: nat)
    requires forall i, j :: 0 <= i < j < |peers| ==> peers[i].id != peers[j].id
    ensures |MatchedIds(peers, index)| == Medians.Count(Matched(peers), index)
  {
    if peers != [] {
      MatchedIdsCounted(peers[1..], index);
      assert Matched(peers)[1..] == Matched(peers[1..]);
      if peers[0].id in MatchedIds(peers[1..], index) {
        var k := MatchedPeerOf(peers[1..], index, peers[0].id);
      }
    }
  }

  /** In a fresh tenure, what the leader commits a majority held. */
  lemma CommitHeld(n: Node, h: History, i: nat, size: nat, index: nat)
    requires h.victories.Keys == h.led.Keys && AcksOk(h)
    requires ShapeOk(n, i, size) && i < size && h.LedBy(n.term, i) && h.led[n.term] == n.log.entries
    requires forall k {:trigger MatchOk(n, h, k)} :: 0 <= k < |n.peers| ==> MatchOk(n, h, k)
    requires 1 <= index <= |n.log.entries| && index <= Median(Reached(n))
    ensures Majority(Holders(h, n.term, index, size), size)
  {
    Medians.MedianIsLargestMajority(Reached(n), index);
    assert Reached(n)[1..] == Matched(n.peers);
    DistinctPeers(n, i, size);
    MatchedIdsCounted(n.peers, index);
    var ids := MatchedIds(n.peers, index);
    forall id | id in ids ensures id in Holders(h, n.term, index, size) && id != i {
      var k := MatchedPeerOf(n.peers, index, id);
      PeerHolds(n, h, i, size, index, k);
    }
    assert i in Holders(h, n.term, index, size);
    SubsetCounted(ids + {i}, Holders(h, n.term, index, size));
  }

  lemma DistinctPeers(n: Node, i: nat, size: nat)
    requires ShapeOk(n, i, size)
    ensures forall a, b :: 0 <= a < b < |n.peers| ==> n.peers[a].id != n.peers[b].id
  {}

  lemma PeerHolds(n: Node, h: History, i: nat, size: nat, index: nat, k: nat)
    requires h.victories.Keys == h.led.Keys && AcksOk(h)
    requires ShapeOk(n, i, size) && n.term in h.led && index <= |h.led[n.term]|
    requires k < |n.peers| && MatchOk(n, h, k) && 1 <= index <= n.peers[k].matched
    ensures n.peers[k].id in Holders(h, n.term, index, size) && n.peers[k].id != i
  {
    assert Ack(n.term, n.peers[k].id, index) in h.acks;
    assert Others(size, i)[k] in Others(size, i);
  }

  lemma MatchedCommitsOk(g: Group, g': Group, i: nat, n1: Node, index: nat)
    requires AlwaysInv(g) && VotedInv(g) && i < |g.nodes| && NodeOk(g, i)
    requires g.nodes[i].role == Leader
    requires var n := g.nodes[i]; n1 == n.(peers := n1.peers) && ShapeOk(n1, i, |g.nodes|)
    requires PeersOk(n1, g.record) && index == Median(Reached(n1))
    requires g'.record.h.victories == g.record.h.victories && g'.record.h.led == g.record.h.led
          && g'.record.h.acks == g.record.h.acks && g'.record.freshTerms == g.record.freshTerms
    requires g'.record.commits
          == ObserveCommit(g'.record.(commits := g.record.commits), g.nodes[i], Some(index)).commits
    ensures forall c {:trigger CommitmentOk(g'.record.h, c, |g.nodes|)} ::
      c in g'.record.commits && c !in g.record.commits ==> CommitmentOk(g'.record.h, c, |g.nodes|)
  {
    var n := g.nodes[i];
    forall c | c in g'.record.commits && c !in g.record.commits
      ensures CommitmentOk(g'.record.h, c, |g.nodes|)
    {
      assert c == Commitment(n.term, index);
      assert LeaderOk(n, g.record);
      forall k: nat | k < |n1.peers| ensures MatchOk(n1, g'.record.h, k) {
        assert MatchOk(n1, g.record.h, k);
      }
      CommitHeld(n1, g'.record.h, i, |g.nodes|, index);
    }
  }

  //
  // Client messages
  //

  lemma PublishStep(g: Group, i: Id, request: PublishRequest)
    requires Inv(g) && Enabled(g, ReceivePublish(i, request))
    ensures Advances(g, Next(g, ReceivePublish(i, request)))
  {
    var n := g.nodes[i];
    assert NodeOk(g, i);
    var (n', _) := HandlePublish(n, request);
    var g' := Next(g, ReceivePublish(i, request));
    assert g' == Update(g, i, n', {});
    if n.role != Leader {
      UnchangedStep(g, g', i);
    } else {
      PublishEffect(n, request);
      PublishedStep(g, g', i, n', n'.log.entries[|n.log.entries|..]);
    }
  }

  lemma PublishedStep(g: Group, g': Group, i: nat, n': Node, entries: seq<Entry>)
    requires Inv(g) && i < |g.nodes| && NodeOk(g, i) && g.nodes[i].role == Leader
    requires g' == Update(g, i, n', {})
    requires Published(g.nodes[i], n') && n'.log.entries == g.nodes[i].log.entries + entries
    ensures Advances(g, g')
  {
    var n := g.nodes[i];
    assert forall k :: 0 <= k < |entries| ==>
      entries[k] == n'.log.entries[|n.log.entries| + k];
    assert g'.record.h == ObserveLead(g.record.h, n, n');
    LeadCore(g, g', i, n', entries);
    PublishedNodeOk(g, g', i, n');
    if !g'.record.unvoted {
      PublishedLeader(g, g', i, n');
    }
    Assemble(g, g', i);
  }

  lemma PublishedLeader(g: Group, g': Group, i: nat, n': Node)
    requires AlwaysInv(g) && VotedInv(g) && i < |g.nodes| && g.nodes[i].role == Leader
    requires NodeOk(g, i) && g' == Update(g, i, n', {}) && Published(g.nodes[i], n')
    ensures LeaderOk(g'.nodes[i], g'.record)
  {
    assert LeaderOk(g.nodes[i], g.record);
    SamePeersLonger(g.nodes[i], n', g.record, g'.record);
  }

  lemma PublishedNodeOk(g: Group, g': Group, i: nat, n': Node)
    requires AlwaysInv(g) && i < |g.nodes| && NodeOk(g, i) && g.nodes[i].role == Leader
    requires g' == Update(g, i, n', {}) && Published(g.nodes[i], n')
    requires OnlyBy(g.record.h, g'.record.h, i)
    ensures NodeOk(g', i) && Local(g, g', i)
  {
    KeptShape(g.nodes[i], n', i, |g.nodes|);
  }

  lemma SamePeersLonger(n: Node, n': Node, r: Record, r': Record)
    requires LeaderOk(n, r) && n.role == Leader && Published(n, n')
    requires r'.freshTerms == r.freshTerms && r'.h == ObserveLead(r.h, n, n')
    ensures LeaderOk(n', r')
  {
    if n'.term in r'.freshTerms {
      forall k: nat | k < |n'.peers| ensures MatchOk(n', r'.h, k) {
        assert MatchOk(n, r.h, k);
      }
    }
  }

  //
  // Every step
  //

  lemma StepKeepsInv(g: Group, e: Event, g': Group)
    requires Inv(g) && Step(g, e, g')
    ensures Advances(g, g')
  {
    match e
    case Timeout(i) => TimeoutStep(g, i);
    case ReceiveVoteRequest(p, open) => VoteRequestStep(g, p, open);
    case ReceiveVoteResponse(p) => VoteResponseStep(g, p);
    case SendAppend(i, peer, gap, batch) => SendStep(g, i, peer, gap, batch);
    case ReceiveAppendRequest(p) => AppendRequestStep(g, p);
    case ReceiveAppendResponse(p) => AppendResponseStep(g, p);
    case ReceivePublish(i, request) => PublishStep(g, i, request);
    case GiveUp(i, lock) => GiveUpStep(g, i, lock);
    case LockCommits(i, locked) => LockStep(g, i, locked);
  }
}
