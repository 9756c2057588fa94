/**
 What a leader commits, a majority has: the commits of a leader whose peers matched nothing when it
 was elected.
 */
module QuorumCommits {
  import opened Types
  import opened Log
  import opened Handlers
  import opened NodeFacts
  import opened Quorums
  import opened Core
  import opened CoreActions
  import opened Group
  import opened GroupInv
  import opened GroupSteps
  import opened Safety

  /** In this step the server accepts an append request of the term, and holds this log after it. */
  predicate Acknowledges(
    states: seq<Group>, events: seq<Event>, s: nat, j: Id, leader: Id, term: nat, log: seq<Entry>)
    requires |states| == |events| + 1 && s < |events|
  {
    var e := events[s];
    && e.ReceiveAppendRequest? && e.p.AskAppend? && e.p.to == j
    && e.p.append.term == term && e.p.append.serverId == leader
    && j < |states[s].nodes| && j < |states[s + 1].nodes|
    && states[s].nodes[j].Retains() && AppendRequestAllowed(states[s].nodes[j], e.p.append)
    && HandleAppendRequest(states[s].nodes[j], e.p.append).1.accepted
    && states[s + 1].nodes[j].term == term
    && log <= states[s + 1].nodes[j].log.entries
  }

  /** The acknowledgement enters the record in this step. */
  ghost predicate NewAck(g: Group, e: Event, g': Group, a: Ack) {
    && a in g'.record.h.acks
    && e.ReceiveAppendRequest? && e.p.AskAppend? && e.p.to == a.server
    && a.server < |g.nodes| == |g'.nodes|
    && g.nodes[a.server].Retains() && AppendRequestAllowed(g.nodes[a.server], e.p.append)
    && HandleAppendRequest(g.nodes[a.server], e.p.append).1.accepted
    && e.p.append.term == g'.nodes[a.server].term == a.term
    && e.p in g.net
  }

  /** Only an accepted append request is acknowledged. */
  lemma AcksStay(g: Group, e: Event, g': Group)
    requires Step(g, e, g') && !e.ReceiveAppendRequest?
    ensures g'.record.h.acks == g.record.h.acks
  {
    match e
    case Timeout(i) =>
      if g.nodes[i].role != Leader {
        UpdateKeepsAcks(g, i, RequestElection(g.nodes[i]).node,
                        ToAll(g.nodes[i].peers, RequestElection(g.nodes[i]).broadcast));
      }
    case ReceiveVoteRequest(p, open) =>
      var (n', response) := HandleVoteRequest(g.nodes[p.to], p.vote, open);
      UpdateKeepsAcks(g, p.to, n', {AnswerVote(p.vote.serverId, response)});
    case ReceiveVoteResponse(p) =>
      var effect := HandlePeerVoteResponse(g.nodes[p.to], p.ballot.serverId, p.ballot);
      UpdateKeepsAcks(g, p.to, effect.node, ToAll(g.nodes[p.to].peers, effect.broadcast));
    case SendAppend(i, peer, gap, batch) =>
    case ReceiveAppendResponse(p) =>
      UpdateKeepsAcks(g, p.to, HandlePeerAppendResponse(g.nodes[p.to], p.answer.serverId, p.answer).0, {});
    case ReceivePublish(i, request) =>
      UpdateKeepsAcks(g, i, HandlePublish(g.nodes[i], request).0, {});
    case GiveUp(i, lock) =>
    case LockCommits(i, locked) =>
  }

  lemma UpdateKeepsAcks(g: Group, i: Id, n': Node, sent: set<Packet>)
    requires i < |g.nodes|
    ensures Update(g, i, n', sent).record.h.acks == g.record.h.acks
  {}

  lemma AckFromStep(g: Group, e: Event, g': Group, a: Ack)
    requires AlwaysInv(g) && Step(g, e, g') && a in g'.record.h.acks && a !in g.record.h.acks
    ensures NewAck(g, e, g', a)
  {
    if !e.ReceiveAppendRequest? {
      AcksStay(g, e, g');
    } else {
      AckFromRequest(g, e.p, g', a);
    }
  }

  lemma AckFromRequest(g: Group, p: Packet, g': Group, a: Ack)
    requires AlwaysInv(g) && Enabled(g, ReceiveAppendRequest(p)) && g' == Next(g, ReceiveAppendRequest(p))
    requires a in g'.record.h.acks && a !in g.record.h.acks
    ensures NewAck(g, ReceiveAppendRequest(p), g', a)
  {
    var n := g.nodes[p.to];
    assert NodeOk(g, p.to) && PacketOk(g, p);
    KnownServer(|g.nodes|, p.append.serverId);
    if AppendRequestAllowed(n, p.append) {
      AppendEffect(n, p.append);
      var (n', response) := HandleAppendRequest(n, p.append);
      var u := Update(g, p.to, n', {AnswerAppend(p.append.serverId, response)});
      assert g' == u.(record := ObserveAck(u.record, n', response));
      AckIsObserved(g.record, n, n', |g.nodes|, response, a);
    }
  }

  lemma AckIsObserved(r: Record, n: Node, n': Node, size: nat, response: AppendResponse, a: Ack)
    requires a in ObserveAck(Observe(r, n, n', size), n', response).h.acks && a !in r.h.acks
    ensures response.accepted && a.term == n'.term && a.server == n'.id
  {}

  lemma KnownServer(size: nat, id: Id)
    requires id < size
    ensures id in Ids(size)
  {
    assert Ids(size)[id] == id;
  }

  lemma AckOrigin(states: seq<Group>, events: seq<Event>, k: nat, a: Ack)
    returns (s: nat)
    requires Run(states, events) && k < |states| && a in states[k].record.h.acks
    ensures s < k && NewAck(states[s], events[s], states[s + 1], a)
  {
    s := FirstAck(states, events, k, a);
    AckFromRun(states, events, s, a);
  }

  lemma {:induction false} FirstAck(states: seq<Group>, events: seq<Event>, k: nat, a: Ack)
    returns (s: nat)
    requires Run(states, events) && k < |states| && a in states[k].record.h.acks
    ensures s < k && a !in states[s].record.h.acks && a in states[s + 1].record.h.acks
  {
    assert k > 0;
    if a in states[k - 1].record.h.acks {
      s := FirstAck(states, events, k - 1, a);
    } else {
      s := k - 1;
    }
  }

  lemma AckFromRun(states: seq<Group>, events: seq<Event>, s: nat, a: Ack)
    requires Run(states, events) && s < |events|
    requires a !in states[s].record.h.acks && a in states[s + 1].record.h.acks
    ensures NewAck(states[s], events[s], states[s + 1], a)
  {
    RunInv(states, events, s);
    assert StepAt(states, events, s);
    AckFromStep(states[s], events[s], states[s + 1], a);
  }

  /** In its own term, a server still has what it acknowledged. */
  lemma AckedHas(g: Group, a: Ack)
    requires Inv(g) && !g.record.unvoted && a in g.record.h.acks
    requires a.server < |g.nodes| && g.nodes[a.server].term == a.term
    ensures a.term in g.record.h.led && a.index <= |g.record.h.led[a.term]|
    ensures g.record.h.led[a.term][..a.index] <= g.nodes[a.server].log.entries
  {
    var c := CoreOf(g);
    assert Held(c.h, a.term, a.server, a.index);
    assert StillHas(c, a.term, a.server, a.index);
  }

  /** An append request of a term comes from the term's leader. */
  lemma AskedByLeader(g: Group, p: Packet)
    requires Inv(g) && !g.record.unvoted && p in g.net && p.AskAppend?
    ensures g.record.h.LedBy(p.append.term, p.append.serverId)
  {
    assert PacketLogOk(g.record.h, p);
  }

  lemma AckedInRun(states: seq<Group>, events: seq<Event>, k: nat, a: Ack)
    requires VotedRun(states, events) && k < |states| && a in states[k].record.h.acks
    requires a.server < |states[k].nodes| && states[k].nodes[a.server].term == a.term
    ensures a.term in states[k].record.h.led && a.index <= |states[k].record.h.led[a.term]|
    ensures states[k].record.h.led[a.term][..a.index] <= states[k].nodes[a.server].log.entries
  {
    RunInv(states, events, k);
    VotedRunNeverUnvoted(states, events, k);
    AckedHas(states[k], a);
  }

  lemma AskedInRun(states: seq<Group>, events: seq<Event>, k: nat, p: Packet)
    requires VotedRun(states, events) && k < |states| && p in states[k].net && p.AskAppend?
    ensures states[k].record.h.LedBy(p.append.term, p.append.serverId)
  {
    RunInv(states, events, k);
    VotedRunNeverUnvoted(states, events, k);
    AskedByLeader(states[k], p);
  }

  /** Whoever is recorded as acknowledging a leader's log did so in some step. */
  lemma Acknowledged(
    states: seq<Group>, events: seq<Event>, k: nat, a: Ack, leader: Id, log: seq<Entry>)
    returns (s: nat)
    requires VotedRun(states, events) && k < |states| && a in states[k].record.h.acks
    requires states[k].record.h.LedBy(a.term, leader)
    requires log <= states[k].record.h.led[a.term] && |log| <= a.index
    ensures s < k && Acknowledges(states, events, s, a.server, leader, a.term, log)
  {
    s := FirstAck(states, events, k, a);
    AckedBy(states, events, s, a);
    HadThen(states, events, s + 1, k, a, log);
    LedThenToo(states, events, s, k, events[s].p, leader);
    AcknowledgedNow(states, events, s, a, leader, log);
  }

  lemma AckedBy(states: seq<Group>, events: seq<Event>, s: nat, a: Ack)
    requires Run(states, events) && s < |events|
    requires a !in states[s].record.h.acks && a in states[s + 1].record.h.acks
    ensures a.server < |states[s + 1].nodes| && states[s + 1].nodes[a.server].term == a.term
    ensures events[s].ReceiveAppendRequest? && events[s].p.AskAppend? && events[s].p in states[s].net
    ensures events[s].p.append.term == a.term
  {
    AckFromRun(states, events, s, a);
  }

  lemma AcknowledgedNow(
    states: seq<Group>, events: seq<Event>, s: nat, a: Ack, leader: Id, log: seq<Entry>)
    requires Run(states, events) && s < |events|
    requires a !in states[s].record.h.acks && a in states[s + 1].record.h.acks
    requires a.server < |states[s + 1].nodes| && events[s].ReceiveAppendRequest? && events[s].p.AskAppend?
    requires events[s].p.append.serverId == leader
    requires log <= states[s + 1].nodes[a.server].log.entries
    ensures Acknowledges(states, events, s, a.server, leader, a.term, log)
  {
    AckFromRun(states, events, s, a);
  }

  /** What a server acknowledged in a term it had when it did. */
  lemma HadThen(states: seq<Group>, events: seq<Event>, s: nat, k: nat, a: Ack, log: seq<Entry>)
    requires VotedRun(states, events) && s <= k < |states| && a in states[s].record.h.acks
    requires a.server < |states[s].nodes| && states[s].nodes[a.server].term == a.term
    requires a.term in states[k].record.h.led
    requires log <= states[k].record.h.led[a.term] && |log| <= a.index
    ensures log <= states[s].nodes[a.server].log.entries
  {
    AckedInRun(states, events, s, a);
    VotedRunNeverUnvoted(states, events, k);
    RunGrows(states, events, s, k);
    var led := states[s].record.h.led[a.term];
    ShorterPrefix(log, led, states[k].record.h.led[a.term], a.index);
    PrefixTrans(log, led[..a.index], states[s].nodes[a.server].log.entries);
  }

  /** The sender of a request is who later is known to have led its term. */
  lemma LedThenToo(states: seq<Group>, events: seq<Event>, s: nat, k: nat, p: Packet, leader: Id)
    requires VotedRun(states, events) && s <= k < |states| && p in states[s].net && p.AskAppend?
    requires states[k].record.h.LedBy(p.append.term, leader)
    ensures p.append.serverId == leader
  {
    AskedInRun(states, events, s, p);
    RunGrows(states, events, s, k);
  }

  lemma ShorterPrefix(log: seq<Entry>, led: seq<Entry>, led': seq<Entry>, index: nat)
    requires log <= led' && led <= led' && |log| <= index <= |led|
    ensures log <= led[..index]
  {
    assert led == led'[..|led|];
  }

  /** The leader as it is when it takes the middle index. */
  lemma CommitPoint(g: Group, i: nat, p: Packet, index: nat)
    requires AlwaysInv(g) && VotedInv(g)
    requires i < |g.nodes| && p in g.net && p.AnswerAppend? && p.to == i && g.nodes[i].Retains()
    requires CommitOf(g.nodes[i], p.answer.serverId, p.answer) == Some(index) && index >= 1
    requires g.nodes[i].term in g.record.freshTerms
    ensures BackedByMajority(g, i, index)
  {
    var n := g.nodes[i];
    assert NodeOk(g, i) && LeaderOk(n, g.record) && PacketLogOk(g.record.h, p);
    var n1 := MatchedPeer(n, p.answer);
    MatchedPeersOk(n, n1, g.record, p.answer);
    assert index == Median(Reached(n1));
    MedianInLog(n1, g.record.h, index);
    CommitHeld(n1, g.record.h, i, |g.nodes|, index);
  }

  ghost predicate BackedByMajority(g: Group, i: nat, index: nat)
    requires i < |g.nodes|
  {
    var n, h := g.nodes[i], g.record.h;
    && h.victories.Keys == h.led.Keys
    && h.LedBy(n.term, i) && h.led[n.term] == n.log.entries && n.log.start == 1
    && index <= |n.log.entries|
    && Majority(Holders(h, n.term, index, |g.nodes|), |g.nodes|)
  }

  lemma MedianInLog(n: Node, h: History, index: nat)
    requires AcksOk(h) && n.log.start == 1
    requires n.term in h.led && h.led[n.term] == n.log.entries
    requires forall k {:trigger MatchOk(n, h, k)} :: 0 <= k < |n.peers| ==> MatchOk(n, h, k)
    requires index <= Median(Reached(n))
    ensures index <= |n.log.entries|
  {
    Medians.MedianIsLargestMajority(Reached(n), index);
    forall k | 0 <= k < |Reached(n)| ensures Reached(n)[k] <= |n.log.entries| {
      assert k > 0 ==> MatchOk(n, h, k - 1);
    }
    if index > 0 {
      SomeReaches(Reached(n), index);
    }
  }

  lemma {:induction false} SomeReaches(s: seq<nat>, index: nat)
    requires Medians.Count(s, index) > 0
    ensures exists k :: 0 <= k < |s| && s[k] >= index
  {
    if s[0] >= index {
    } else {
      SomeReaches(s[1..], index);
      var k :| 0 <= k < |s[1..]| && s[1..][k] >= index;
      assert s[k + 1] >= index;
    }
  }

  /**
   Quorum-backed commit: whatever index a leader passes to its commit, in a tenure that began with no
   peer matching anything, a strict majority has its log up to there: each of them but the leader
   itself accepted, in an earlier step, an append request of this leader and term, and held these
   entries when it did.
   */
  lemma QuorumBackedCommit(
    states: seq<Group>, events: seq<Event>, a: nat, k: nat, i: nat, index: nat)
    returns (quorum: set<nat>)
    requires VotedRun(states, events) && a < k < |events|
    requires i < |states[k].nodes| && FreshElection(states, a, i, states[k].nodes[i].term)
    requires CommitsAt(states, events, k, i, index)
    ensures var n := states[k].nodes[i];
      && index <= |n.log.entries|
      && Majority(quorum, |states[k].nodes|) && i in quorum
      && forall j: nat :: j in quorum && j != i ==>
           exists s: nat :: s < k && Acknowledges(states, events, s, j, i, n.term, n.log.entries[..index])
  {
    var n, h := states[k].nodes[i], states[k].record.h;
    FreshRecorded(states, events, a, k, i, n.term);
    RunInv(states, events, k);
    VotedRunNeverUnvoted(states, events, k);
    assert StepAt(states, events, k);
    CommitPoint(states[k], i, events[k].p, index);
    quorum := Holders(h, n.term, index, |states[k].nodes|);
    forall j: nat | j in quorum && j != i
      ensures exists s: nat ::
        s < k && Acknowledges(states, events, s, j, i, n.term, n.log.entries[..index])
    {
      assert Ack(n.term, j, index) in h.acks;
      var s := Acknowledged(states, events, k, Ack(n.term, j, index), i, n.log.entries[..index]);
    }
  }
}
