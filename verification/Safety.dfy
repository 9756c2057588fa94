/**
 What holds over every run of a group, however its network behaves.

 The theorems speak of the servers and packets of a run's states. Their proofs go through the
 record (modules `Core` and `GroupInv`), which no theorem's reader needs to look at.
 */
module Safety {
  import opened Types
  import opened Log
  import opened Handlers
  import opened Quorums
  import opened Core
  import opened CoreActions
  import opened Group
  import opened GroupInv
  import opened GroupSteps
  import opened NodeFacts

  //
  // Runs
  //

  lemma {:induction false} RunInv(states: seq<Group>, events: seq<Event>, k: nat)
    requires Run(states, events) && k < |states|
    ensures Inv(states[k]) && |states[k].nodes| == |states[0].nodes|
  {
    if k == 0 {
      InitialInv(|states[0].nodes|);
    } else {
      RunInv(states, events, k - 1);
      assert StepAt(states, events, k - 1);
      StepKeepsInv(states[k - 1], events[k - 1], states[k]);
    }
  }

  lemma RunAdvances(states: seq<Group>, events: seq<Event>, k: nat)
    requires Run(states, events) && k < |events|
    ensures Inv(states[k]) && Advances(states[k], states[k + 1])
  {
    RunInv(states, events, k);
    assert StepAt(states, events, k);
    StepKeepsInv(states[k], events[k], states[k + 1]);
  }

  lemma RunStepGrows(states: seq<Group>, events: seq<Event>, k: nat)
    requires Run(states, events) && k < |events|
    ensures Grows(states[k].record.h, states[k + 1].record.h)
    ensures states[k].record.unvoted ==> states[k + 1].record.unvoted
    ensures !states[k + 1].record.unvoted ==> LedGrows(states[k].record.h, states[k + 1].record.h)
    ensures |states[k].nodes| == |states[k + 1].nodes|
  {
    RunAdvances(states, events, k);
  }

  /** The record at one moment is part of the record at any later one. */
  lemma {:induction false} RunGrows(states: seq<Group>, events: seq<Event>, a: nat, b: nat)
    requires Run(states, events) && a <= b < |states|
    ensures Grows(states[a].record.h, states[b].record.h)
    ensures states[a].record.unvoted ==> states[b].record.unvoted
    ensures !states[b].record.unvoted ==> LedGrows(states[a].record.h, states[b].record.h)
    ensures |states[a].nodes| == |states[b].nodes|
    decreases b - a
  {
    if a < b {
      RunGrows(states, events, a, b - 1);
      RunStepGrows(states, events, b - 1);
      GrowsTrans(states[a].record.h, states[b - 1].record.h, states[b].record.h);
    }
  }

  lemma GrowsTrans(h1: History, h2: History, h3: History)
    requires Grows(h1, h2) && Grows(h2, h3)
    ensures Grows(h1, h3)
    ensures LedGrows(h1, h2) && LedGrows(h2, h3) ==> LedGrows(h1, h3)
  {
    if LedGrows(h1, h2) && LedGrows(h2, h3) {
      forall t | t in h1.led ensures h1.led[t] <= h3.led[t] {
        PrefixTrans(h1.led[t], h2.led[t], h3.led[t]);
      }
    }
  }

  //
  // Elections
  //

  /** In this step, the server becomes leader out of a count of votes, or alone in its group. */
  predicate Elected(g: Group, g': Group, i: nat) {
    && i < |g.nodes| && i < |g'.nodes|
    && BecomesLeader(g.nodes[i], g'.nodes[i]) && VotePhase(g.nodes[i])
  }

  /** In this step, some server becomes leader without having counted votes. */
  predicate ElectedUnvoted(g: Group, g': Group) {
    exists i :: 0 <= i < |g.nodes| && i < |g'.nodes|
                && BecomesLeader(g.nodes[i], g'.nodes[i]) && !VotePhase(g.nodes[i])
  }

  /** A run in which every leader was elected by votes. */
  ghost predicate VotedRun(states: seq<Group>, events: seq<Event>) {
    && Run(states, events)
    && forall k: nat {:trigger StepAt(states, events, k)} ::
         k < |events| ==> !ElectedUnvoted(states[k], states[k + 1])
  }

  /** A step either leaves the servers alone, or one server steps and is observed. */
  ghost predicate Observed(g: Group, g': Group, i: nat) {
    && i < |g.nodes| && |g'.nodes| == |g.nodes|
    && (forall j :: 0 <= j < |g.nodes| && j != i ==> g'.nodes[j] == g.nodes[j])
    && (|| (g'.nodes == g.nodes && g'.record == g.record)
        || var r := Observe(g.record, g.nodes[i], g'.nodes[i], |g.nodes|);
           && g'.record.h.victories == r.h.victories
           && g'.record.unvoted == r.unvoted && g'.record.freshTerms == r.freshTerms)
  }

  function Actor(e: Event): Id {
    match e
    case Timeout(i) => i
    case ReceiveVoteRequest(p, _) => p.to
    case ReceiveVoteResponse(p) => p.to
    case SendAppend(i, _, _, _) => i
    case ReceiveAppendRequest(p) => p.to
    case ReceiveAppendResponse(p) => p.to
    case ReceivePublish(i, _) => i
    case GiveUp(i, _) => i
    case LockCommits(i, _) => i
  }

  lemma UpdateObserved(g: Group, g': Group, i: nat, n': Node, sent: set<Packet>)
    requires i < |g.nodes|
    requires var u := Update(g, i, n', sent);
      && g'.nodes == u.nodes && g'.record.h.victories == u.record.h.victories
      && g'.record.unvoted == u.record.unvoted && g'.record.freshTerms == u.record.freshTerms
    ensures Observed(g, g', i)
  {}

  lemma StepObserved(g: Group, e: Event, g': Group)
    requires Step(g, e, g')
    ensures Observed(g, g', Actor(e))
  {
    match e
    case Timeout(i) =>
      if g.nodes[i].role != Leader {
        var effect := RequestElection(g.nodes[i]);
        UpdateObserved(g, g', i, effect.node, ToAll(g.nodes[i].peers, effect.broadcast));
      }
    case ReceiveVoteRequest(p, open) =>
      var (n', response) := HandleVoteRequest(g.nodes[p.to], p.vote, open);
      UpdateObserved(g, g', p.to, n', {AnswerVote(p.vote.serverId, response)});
    case ReceiveVoteResponse(p) =>
      var effect := HandlePeerVoteResponse(g.nodes[p.to], p.ballot.serverId, p.ballot);
      UpdateObserved(g, g', p.to, effect.node, ToAll(g.nodes[p.to].peers, effect.broadcast));
    case SendAppend(i, peer, gap, batch) =>
    case ReceiveAppendRequest(p) =>
      if AppendRequestAllowed(g.nodes[p.to], p.append) {
        var (n', response) := HandleAppendRequest(g.nodes[p.to], p.append);
        UpdateObserved(g, g', p.to, n', {AnswerAppend(p.append.serverId, response)});
      }
    case ReceiveAppendResponse(p) =>
      UpdateObserved(g, g', p.to,
                     HandlePeerAppendResponse(g.nodes[p.to], p.answer.serverId, p.answer).0, {});
    case ReceivePublish(i, request) =>
      UpdateObserved(g, g', i, HandlePublish(g.nodes[i], request).0, {});
    case GiveUp(i, lock) =>
      UpdateObserved(g, g', i, StepDown(g.nodes[i], lock), {});
    case LockCommits(i, locked) =>
      UpdateObserved(g, g', i, g.nodes[i].(commitsLocked := locked), {});
  }

  /** A server alone in its group is elected in a term it enters by that. */
  lemma AloneElection(g: Group, e: Event, g': Group, i: nat)
    requires AlwaysInv(g) && Step(g, e, g') && Elected(g, g', i) && NodeOk(g, i)
    requires g.nodes[i].peers == []
    ensures g'.nodes[i].term == g.nodes[i].term + 1
  {
    var n := g.nodes[i];
    assert |g.nodes| == 1 && i == 0;
    assert e.ReceiveAppendRequest? ==> PacketOk(g, e.p);
    if e.Timeout? {
      AloneTimeout(n);
    } else {
      AloneWaits(g, e, g');
    }
  }

  lemma AloneTimeout(n: Node)
    requires n.Retains() && Fixed(n) && n.role == Follower && n.peers == []
    ensures var r := RequestElection(n).node; r.role == Leader ==> r.term == n.term + 1
  {
    if !n.election.locked {
      BecomeCandidateAlone(ClearElection(RestartTimer(n)));
    }
  }

  /** A server alone in its group becomes leader by its election timer only. */
  lemma AloneWaits(g: Group, e: Event, g': Group)
    requires AlwaysInv(g) && Step(g, e, g') && !e.Timeout? && |g.nodes| == 1 && g.nodes[0].role != Leader
    ensures g'.nodes[0].role != Leader
  {
    assert NodeOk(g, 0);
    assert e.ReceiveAppendRequest? ==> PacketOk(g, e.p);
    if e.ReceiveVoteRequest? {
      VoteRequestEffect(g.nodes[0], e.p.vote, e.open);
    }
  }

  /** A server elected in this step had not been elected in this term before. */
  lemma ElectedOnce(g: Group, g': Group, i: nat)
    requires AlwaysInv(g) && Elected(g, g', i) && NodeOk(g, i)
    requires g'.nodes[i].term >= g.nodes[i].term
    requires g.nodes[i].peers == [] ==> g'.nodes[i].term > g.nodes[i].term
    requires g'.nodes[i].term in g.record.h.victories
    ensures g.record.h.victories[g'.nodes[i].term].leader != i
  {
    var t := g'.nodes[i].term;
    assert VictoryOk(g.record.h, t, |g.nodes|);
    assert CoreOf(g).term[i] == g.nodes[i].term;
  }

  lemma ElectionRecorded(g: Group, e: Event, g': Group, i: nat)
    requires Inv(g) && Step(g, e, g') && Elected(g, g', i)
    ensures var t := g'.nodes[i].term;
      && t !in g.record.h.victories
      && t in g'.record.h.victories && g'.record.h.victories[t].leader == i
      && (MatchesNothing(g.nodes[i].peers) ==> t in g'.record.freshTerms)
  {
    StepObserved(g, e, g');
    StepKeepsInv(g, e, g');
    assert NodeOk(g, i);
    var t := g'.nodes[i].term;
    assert g'.record.h.victories == ObserveHistory(g.record.h, g.nodes[i], g'.nodes[i], |g.nodes|).victories;
    assert g'.record.h.victories[t].leader == i;
    if t in g.record.h.victories {
      if g.nodes[i].peers == [] {
        AloneElection(g, e, g', i);
      }
      ElectedOnce(g, g', i);
    }
  }

  lemma ElectedInRun(states: seq<Group>, events: seq<Event>, a: nat, i: nat)
    requires Run(states, events) && a < |events|
    requires Elected(states[a], states[a + 1], i)
    ensures var t := states[a + 1].nodes[i].term;
      && t !in states[a].record.h.victories
      && t in states[a + 1].record.h.victories && states[a + 1].record.h.victories[t].leader == i
      && (MatchesNothing(states[a].nodes[i].peers) ==> t in states[a + 1].record.freshTerms)
  {
    RunInv(states, events, a);
    assert StepAt(states, events, a);
    ElectionRecorded(states[a], events[a], states[a + 1], i);
  }

  /** Election safety: in any run, at most one election by votes succeeds in a term. */
  lemma ElectionSafety(states: seq<Group>, events: seq<Event>, a: nat, b: nat, i: nat, j: nat)
    requires Run(states, events) && a <= b < |events|
    requires Elected(states[a], states[a + 1], i) && Elected(states[b], states[b + 1], j)
    requires states[a + 1].nodes[i].term == states[b + 1].nodes[j].term
    ensures a == b && i == j
  {
    ElectedInRun(states, events, a, i);
    ElectedInRun(states, events, b, j);
    if a < b {
      RunGrows(states, events, a + 1, b);
    }
  }

  /** In any run, terms and votes only move forward: a vote is kept for as long as its term lasts. */
  lemma VoteKept(states: seq<Group>, events: seq<Event>, a: nat, b: nat, i: nat)
    requires Run(states, events) && a <= b < |states| && i < |states[0].nodes|
    ensures |states[a].nodes| == |states[b].nodes| == |states[0].nodes|
    ensures states[a].nodes[i].term <= states[b].nodes[i].term
    ensures states[a].nodes[i].term == states[b].nodes[i].term && states[a].nodes[i].votedFor.Some?
      ==> states[b].nodes[i].votedFor == states[a].nodes[i].votedFor
  {
    RunInv(states, events, a);
    RunInv(states, events, b);
    RunGrows(states, events, a, b);
    TermsRise(states, events, a, b, i);
    assert NodeOk(states[a], i) && NodeOk(states[b], i);
    if |states[0].nodes| == 1 {
      AloneNeverVotes(states, events, a);
    }
  }

  /** A server alone in its group has no one to vote for. */
  lemma {:induction false} AloneNeverVotes(states: seq<Group>, events: seq<Event>, k: nat)
    requires Run(states, events) && k < |states| && |states[0].nodes| == 1
    ensures |states[k].nodes| == 1 && states[k].nodes[0].votedFor.None?
  {
    if k > 0 {
      AloneNeverVotes(states, events, k - 1);
      RunInv(states, events, k - 1);
      assert StepAt(states, events, k - 1);
      AloneDoesNotVote(states[k - 1], events[k - 1], states[k]);
    }
  }

  lemma AloneDoesNotVote(g: Group, e: Event, g': Group)
    requires AlwaysInv(g) && Step(g, e, g') && |g.nodes| == 1 && g.nodes[0].votedFor.None?
    ensures |g'.nodes| == 1 && g'.nodes[0].votedFor.None?
  {
    var n := g.nodes[0];
    assert NodeOk(g, 0);
    assert (e.ReceiveVoteRequest? || e.ReceiveVoteResponse? || e.ReceiveAppendRequest?
            || e.ReceiveAppendResponse?) ==> PacketOk(g, e.p);
    if e.Timeout? && n.role != Leader {
      AloneTimesOut(n);
    } else if e.ReceivePublish? && n.role == Leader {
      PublishEffect(n, e.request);
    }
  }

  lemma AloneTimesOut(n: Node)
    requires n.Retains() && Fixed(n) && n.role == Follower && n.peers == [] && n.votedFor.None?
    ensures RequestElection(n).node.votedFor.None?
  {
    if !n.election.locked {
      BecomeCandidateAlone(ClearElection(RestartTimer(n)));
    }
  }

  lemma {:induction false} TermsRise(states: seq<Group>, events: seq<Event>, a: nat, b: nat, i: nat)
    requires Run(states, events) && a <= b < |states| && i < |states[0].nodes|
    ensures |states[a].nodes| == |states[b].nodes| == |states[0].nodes|
    ensures states[a].nodes[i].term <= states[b].nodes[i].term
    decreases b - a
  {
    RunInv(states, events, a);
    if a < b {
      TermsRise(states, events, a, b - 1, i);
      RunAdvances(states, events, b - 1);
    }
  }

  //
  // Leaders
  //

  /** In any run a leader has finished its election and stopped its timer. */
  lemma LeaderStateMachine(states: seq<Group>, events: seq<Event>, k: nat, i: nat)
    requires Run(states, events) && k < |states| && i < |states[k].nodes|
    requires states[k].nodes[i].role == Leader
    ensures states[k].nodes[i].election.completed && !states[k].nodes[i].election.timerStarted
    ensures forall id :: ElectionByLeader(id) !in states[k].aborts
    ensures !Enabled(states[k], Timeout(i))
  {
    RunInv(states, events, k);
    assert NodeOk(states[k], i);
  }

  /** Hence a vote response changes nothing at a leader, unless it carries a later term. */
  lemma LateVoteIgnored(states: seq<Group>, events: seq<Event>, k: nat, p: Packet)
    requires Run(states, events) && k < |states|
    requires Enabled(states[k], ReceiveVoteResponse(p))
    requires states[k].nodes[p.to].role == Leader
    ensures var n := states[k].nodes[p.to];
      var effect := HandlePeerVoteResponse(n, p.ballot.serverId, p.ballot);
      effect.broadcast.None? && if p.ballot.term <= n.term then effect.node == n
                                else effect.node.role == Follower && effect.node.term == p.ballot.term
  {
    LeaderStateMachine(states, events, k, p.to);
    RunInv(states, events, k);
    assert NodeOk(states[k], p.to) && PacketOk(states[k], p);
    PeerKnown(states[k].nodes[p.to], p.to, |states[k].nodes|, p.ballot.serverId);
  }

  lemma {:induction false} VotedRunNeverUnvoted(states: seq<Group>, events: seq<Event>, k: nat)
    requires VotedRun(states, events) && k < |states|
    ensures !states[k].record.unvoted
  {
    if k > 0 {
      VotedRunNeverUnvoted(states, events, k - 1);
      assert StepAt(states, events, k - 1);
      StepObserved(states[k - 1], events[k - 1], states[k]);
    }
  }

  /** While every leader is voted for, no assertion of the original fails. */
  lemma NothingAborts(states: seq<Group>, events: seq<Event>, k: nat)
    requires VotedRun(states, events) && k < |states|
    ensures states[k].aborts == {}
  {
    RunInv(states, events, k);
    VotedRunNeverUnvoted(states, events, k);
  }

  /** While every leader is voted for, a leader has every peer started, its next index in bounds. */
  lemma PeersInBounds(states: seq<Group>, events: seq<Event>, k: nat, i: nat, peer: nat)
    requires VotedRun(states, events) && k < |states| && i < |states[k].nodes|
    requires states[k].nodes[i].role == Leader && peer < |states[k].nodes[i].peers|
    ensures var n := states[k].nodes[i];
      n.peers[peer].started && 1 <= n.peers[peer].nextIndex <= n.log.End()
  {
    RunInv(states, events, k);
    VotedRunNeverUnvoted(states, events, k);
    assert LeaderOk(states[k].nodes[i], states[k].record);
  }

  //
  // Logs
  //

  /** Log matching: two logs, at any moments, with an entry of one term at one index are equal up to it. */
  lemma LogMatching(
    states: seq<Group>, events: seq<Event>, a: nat, b: nat, i: nat, j: nat, index: nat)
    requires VotedRun(states, events) && a <= b < |states|
    requires i < |states[a].nodes| && j < |states[b].nodes|
    requires 1 <= index < states[a].nodes[i].log.End() && index < states[b].nodes[j].log.End()
    requires states[a].nodes[i].log.start == states[b].nodes[j].log.start == 1
    requires states[a].nodes[i].log.At(index).term == states[b].nodes[j].log.At(index).term
    ensures states[a].nodes[i].log.Slice(1, index + 1) == states[b].nodes[j].log.Slice(1, index + 1)
  {
    RunInv(states, events, a);
    RunInv(states, events, b);
    VotedRunNeverUnvoted(states, events, a);
    VotedRunNeverUnvoted(states, events, b);
    RunGrows(states, events, a, b);
    assert ServerLogOk(CoreOf(states[a]), i) && ServerLogOk(CoreOf(states[b]), j);
    KnownGrows(states[a].record.h, states[b].record.h, states[a].nodes[i].log.entries);
    SameTermSamePrefix(states[b].record.h, states[a].nodes[i].log.entries,
                       states[b].nodes[j].log.entries, index);
  }

  lemma LogsStartAtOne(states: seq<Group>, events: seq<Event>, k: nat, i: nat)
    requires Run(states, events) && k < |states| && i < |states[k].nodes|
    ensures states[k].nodes[i].log.start == 1 && states[k].nodes[i].Retains() && states[k].nodes[i].id == i
  {
    RunInv(states, events, k);
    assert NodeOk(states[k], i);
  }

  //
  // Commits
  //

  /** In step `a` the server is elected leader of this term, with no peer matching anything yet. */
  predicate FreshElection(states: seq<Group>, a: nat, i: nat, term: nat)
    requires a + 1 < |states|
  {
    && Elected(states[a], states[a + 1], i)
    && states[a + 1].nodes[i].term == term
    && MatchesNothing(states[a].nodes[i].peers)
  }

  /** In step `k` the leader passes this index of its log to its commit. */
  predicate CommitsAt(states: seq<Group>, events: seq<Event>, k: nat, i: nat, index: nat)
    requires |states| == |events| + 1 && k < |events|
  {
    var e := events[k];
    && e.ReceiveAppendResponse? && e.p.AnswerAppend? && e.p.to == i
    && i < |states[k].nodes| && states[k].nodes[i].Retains()
    && CommitOf(states[k].nodes[i], e.p.answer.serverId, e.p.answer) == Some(index)
    && index >= 1
  }

  /** The leader's log has an entry of its own term at this index. */
  predicate OwnTermAt(n: Node, index: nat) {
    1 <= index <= |n.log.entries| && n.log.entries[index - 1].term == n.term
  }

  lemma FreshRecorded(states: seq<Group>, events: seq<Event>, a: nat, k: nat, i: nat, term: nat)
    requires Run(states, events) && a < k < |states| && FreshElection(states, a, i, term)
    ensures states[k].record.h.LedBy(term, i) && term in states[k].record.freshTerms
  {
    ElectedInRun(states, events, a, i);
    RunGrows(states, events, a + 1, k);
    FreshStays(states, events, a + 1, k);
    LedKeys(states, events, k, term);
  }

  lemma LedKeys(states: seq<Group>, events: seq<Event>, k: nat, term: nat)
    requires Run(states, events) && k < |states|
    ensures term in states[k].record.h.victories <==> term in states[k].record.h.led
  {
    RunInv(states, events, k);
  }

  lemma {:induction false} FreshStays(states: seq<Group>, events: seq<Event>, a: nat, k: nat)
    requires Run(states, events) && a <= k < |states|
    ensures states[a].record.freshTerms <= states[k].record.freshTerms
    ensures states[a].record.commits <= states[k].record.commits
    decreases k - a
  {
    if a < k {
      FreshStays(states, events, a, k - 1);
      assert StepAt(states, events, k - 1);
      StepObserved(states[k - 1], events[k - 1], states[k]);
      CommitsStay(states[k - 1], events[k - 1], states[k]);
    }
  }

  lemma CommitsStay(g: Group, e: Event, g': Group)
    requires Step(g, e, g')
    ensures g.record.commits <= g'.record.commits
  {}

  lemma CommitRecorded(states: seq<Group>, events: seq<Event>, a: nat, k: nat, i: nat, index: nat)
    requires VotedRun(states, events) && a < k < |events|
    requires i < |states[k].nodes| && FreshElection(states, a, i, states[k].nodes[i].term)
    requires CommitsAt(states, events, k, i, index)
    requires OwnTermAt(states[k].nodes[i], index)
    ensures Commitment(states[k].nodes[i].term, index) in states[k + 1].record.commits
  {
    FreshRecorded(states, events, a, k + 1, i, states[k].nodes[i].term);
    LogsStartAtOne(states, events, k, i);
    assert StepAt(states, events, k);
    CommitObserved(states[k], events[k].p, states[k + 1], index);
  }

  lemma CommitObserved(g: Group, p: Packet, g': Group, index: nat)
    requires Step(g, ReceiveAppendResponse(p), g')
    requires var n := g.nodes[p.to];
      && CommitOf(n, p.answer.serverId, p.answer) == Some(index)
      && n.log.start == 1 && OwnTermAt(n, index)
      && n.term in g'.record.freshTerms && g'.record.h.LedBy(n.term, n.id)
    ensures Commitment(g.nodes[p.to].term, index) in g'.record.commits
  {
    var n := g.nodes[p.to];
    var n' := HandlePeerAppendResponse(n, p.answer.serverId, p.answer).0;
    var u := Update(g, p.to, n', {});
    assert g' == u.(record := ObserveCommit(u.record, n, Some(index)));
  }

  /**
   Leader completeness: once a leader whose peers matched nothing at its election commits an entry of
   its own term, every leader of a later term, at any time, has the log up to that entry.
   */
  lemma LeaderCompleteness(
    states: seq<Group>, events: seq<Event>, a: nat, k: nat, i: nat, index: nat, b: nat, j: nat)
    requires VotedRun(states, events) && a < k < |events| && b < |states|
    requires i < |states[k].nodes| && FreshElection(states, a, i, states[k].nodes[i].term)
    requires CommitsAt(states, events, k, i, index)
    requires OwnTermAt(states[k].nodes[i], index)
    requires j < |states[b].nodes| && states[b].nodes[j].role == Leader
    requires states[b].nodes[j].term > states[k].nodes[i].term
    ensures states[k].nodes[i].log.entries[..index] <= states[b].nodes[j].log.entries
  {
    var n, m := states[k].nodes[i], states[b].nodes[j];
    var c := if b < k + 1 then k + 1 else b;
    CommitRecorded(states, events, a, k, i, index);
    FreshStays(states, events, k + 1, c);
    RunInv(states, events, c);
    VotedRunNeverUnvoted(states, events, c);
    CommittedIn(states[c], n.term, index, m.term);
    LedThen(states, events, k, c, i);
    LedThen(states, events, b, c, j);
    StartThen(states, events, b, c, j);
    var h := states[c].record.h;
    assert CommitmentOk(h, Commitment(n.term, index), |states[c].nodes|);
    assert n.log.entries[..index] == h.led[n.term][..index];
    if m.term in h.victories {
      PrefixTrans(n.log.entries[..index], h.victories[m.term].start, m.log.entries);
    }
  }

  /** A leader's log is part of what the record says, then and later, of its term's log. */
  lemma LedThen(states: seq<Group>, events: seq<Event>, k: nat, c: nat, i: nat)
    requires VotedRun(states, events) && k <= c < |states|
    requires i < |states[k].nodes| && states[k].nodes[i].role == Leader
    ensures var n := states[k].nodes[i];
      && n.term in states[c].record.h.led && n.log.entries <= states[c].record.h.led[n.term]
  {
    RunInv(states, events, k);
    VotedRunNeverUnvoted(states, events, k);
    VotedRunNeverUnvoted(states, events, c);
    RunGrows(states, events, k, c);
    assert LeaderOk(states[k].nodes[i], states[k].record);
  }

  /** A leader's log extends the log it was elected with. */
  lemma StartThen(states: seq<Group>, events: seq<Event>, b: nat, c: nat, j: nat)
    requires VotedRun(states, events) && b <= c < |states|
    requires j < |states[b].nodes| && states[b].nodes[j].role == Leader
    ensures var m := states[b].nodes[j];
      && m.term in states[c].record.h.victories
      && states[c].record.h.victories[m.term].start <= m.log.entries
  {
    RunInv(states, events, b);
    VotedRunNeverUnvoted(states, events, b);
    RunGrows(states, events, b, c);
    assert LeaderOk(states[b].nodes[j], states[b].record);
    assert LedOk(states[b].record.h, states[b].nodes[j].term);
  }

  lemma CommittedIn(g: Group, term: nat, index: nat, u: nat)
    requires AlwaysInv(g) && VotedInv(g) && Commitment(term, index) in g.record.commits
    requires u > term
    ensures term in g.record.h.led && index <= |g.record.h.led[term]|
    ensures u in g.record.h.victories ==> Has(g.record.h, g.record.h.victories[u].start, term, index)
  {
    assert CommitmentOk(g.record.h, Commitment(term, index), |g.nodes|);
    if u in g.record.h.victories {
      CompletenessCore(CoreOf(g), term, index, Holders(g.record.h, term, index, |g.nodes|), u);
    }
  }
}
