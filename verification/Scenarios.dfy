/**
 Building runs of a group step by step, keeping track of what matters of each server.
 */
module Scenarios {
  import opened Types
  import opened Log
  import opened Handlers
  import opened NodeFacts
  import opened HandedOver
  import Core
  import opened Group
  import opened GroupInv
  import opened GroupSteps
  import opened Safety

  /** A run so far. */
  datatype Trace = Trace(states: seq<Group>, events: seq<Event>) {
    ghost predicate Ok() {
      VotedRun(states, events)
    }

    function Last(): Group
      requires |states| == |events| + 1
    {
      states[|events|]
    }
  }

  predicate Extends(t: Trace, t': Trace) {
    t.states <= t'.states && t.events <= t'.events
  }

  //
  // What matters of a server
  //

  datatype Track = Track(next: nat, matched: nat, step: nat)

  datatype Brief = Brief(
    term: nat, role: Role, log: seq<Entry>, quick: nat, commit: nat, machine: seq<Applied>,
    tracks: seq<Track>)

  function TracksOf(peers: seq<Peer>): (r: seq<Track>)
    ensures |r| == |peers|
    ensures forall k :: 0 <= k < |r| ==> r[k] == Track(peers[k].nextIndex, peers[k].matched, peers[k].rewindStep)
  {
    if peers == [] then []
    else [Track(peers[0].nextIndex, peers[0].matched, peers[0].rewindStep)] + TracksOf(peers[1..])
  }

  function BriefOf(n: Node): Brief {
    Brief(n.term, n.role, n.log.entries, n.quickCommit, n.commitIndex, n.machine, TracksOf(n.peers))
  }

  /** Nothing keeps the server from commits, or from elections if it does not lead. */
  predicate Ready(n: Node) {
    !n.commitsLocked && !n.election.locked && (n.role != Leader ==> n.election.timerStarted)
  }

  predicate BriefAt(g: Group, bs: seq<Brief>, i: nat)
    requires i < |g.nodes| && i < |bs|
  {
    BriefOf(g.nodes[i]) == bs[i] && Ready(g.nodes[i])
  }

  predicate Briefed(g: Group, bs: seq<Brief>) {
    && |g.nodes| == |bs|
    && forall i: nat {:trigger BriefAt(g, bs, i)} :: i < |bs| ==> BriefAt(g, bs, i)
  }

  /** Where the run has got to. */
  ghost predicate At(t: Trace, bs: seq<Brief>) {
    t.Ok() && Briefed(t.Last(), bs)
  }

  lemma BriefedNext(g: Group, g': Group, bs: seq<Brief>, i: nat, b: Brief)
    requires Briefed(g, bs) && i < |bs| && |g'.nodes| == |g.nodes|
    requires forall j :: 0 <= j < |g.nodes| && j != i ==> g'.nodes[j] == g.nodes[j]
    requires BriefOf(g'.nodes[i]) == b && Ready(g'.nodes[i])
    ensures Briefed(g', bs[i := b])
  {
    var bs' := bs[i := b];
    forall j: nat | j < |bs'| ensures BriefAt(g', bs', j) {
      assert BriefAt(g, bs, j);
    }
  }

  //
  // One step
  //

  lemma Start(size: nat) returns (t: Trace)
    requires size >= 1
    ensures At(t, seq(size, i requires 0 <= i < size => NewBrief(size)))
  {
    t := Trace([NewGroup(size)], []);
    var bs := seq(size, i requires 0 <= i < size => NewBrief(size));
    forall i: nat | i < size ensures BriefAt(NewGroup(size), bs, i) {
      InitialPeersOthers(size, i);
      assert Ids(size)[i] == i;
      assert NewGroup(size).nodes[i] == Started(i, Ids(size));
      assert TracksOf(Started(i, Ids(size)).peers) == NewTracks(size);
      assert BriefOf(Started(i, Ids(size))) == NewBrief(size);
    }
  }

  function NewTracks(size: nat): seq<Track>
    requires size >= 1
  {
    seq(size - 1, k requires 0 <= k < size - 1 => Track(1, 0, 1))
  }

  function NewBrief(size: nat): Brief
    requires size >= 1
  {
    Brief(0, Follower, [], 0, 0, [], NewTracks(size))
  }

  lemma RunGoesOn(states: seq<Group>, events: seq<Event>, e: Event)
    requires VotedRun(states, events) && Enabled(states[|events|], e)
    requires !ElectedUnvoted(states[|events|], Next(states[|events|], e))
    ensures VotedRun(states + [Next(states[|events|], e)], events + [e])
  {
    var states', events' := states + [Next(states[|events|], e)], events + [e];
    forall k: nat | k < |events'| ensures StepAt(states', events', k) {
      assert k < |events| ==> StepAt(states, events, k);
    }
    forall k: nat | k < |events'| ensures !ElectedUnvoted(states'[k], states'[k + 1]) {
      assert k < |events| ==> StepAt(states, events, k);
    }
  }

  /** One more event, which makes no server leader but by votes. */
  lemma Step1(t: Trace, bs: seq<Brief>, e: Event, b: Brief) returns (t': Trace)
    requires At(t, bs) && Enabled(t.Last(), e) && Actor(e) < |bs|
    requires var i := Actor(e); var g := t.Last();
      && |Next(g, e).nodes| == |g.nodes|
      && BriefOf(Next(g, e).nodes[i]) == b && Ready(Next(g, e).nodes[i])
      && (BecomesLeader(g.nodes[i], Next(g, e).nodes[i]) ==> VotePhase(g.nodes[i]))
    ensures At(t', bs[Actor(e) := b]) && Extends(t, t')
    ensures t'.Last() == Next(t.Last(), e) && t'.events == t.events + [e]
    ensures forall j :: 0 <= j < |bs| && j != Actor(e) ==> t'.Last().nodes[j] == t.Last().nodes[j]
  {
    var g, i := t.Last(), Actor(e);
    var g' := Next(g, e);
    t' := Trace(t.states + [g'], t.events + [e]);
    NoneUnvoted(g, e, g');
    RunGoesOn(t.states, t.events, e);
    BriefedNext(g, g', bs, i, b);
  }

  lemma NoneUnvoted(g: Group, e: Event, g': Group)
    requires Step(g, e, g') && |g'.nodes| == |g.nodes| && Actor(e) < |g.nodes|
    requires BecomesLeader(g.nodes[Actor(e)], g'.nodes[Actor(e)]) ==> VotePhase(g.nodes[Actor(e)])
    ensures !ElectedUnvoted(g, g')
    ensures forall j :: 0 <= j < |g.nodes| && j != Actor(e) ==> g'.nodes[j] == g.nodes[j]
  {
    StepObserved(g, e, g');
  }

  /** What the invariant says of each server, and that none has stopped. */
  lemma Sound(t: Trace, bs: seq<Brief>, i: nat)
    requires At(t, bs) && i < |bs|
    ensures ShapeOk(t.Last().nodes[i], i, |bs|) && BriefAt(t.Last(), bs, i)
    ensures t.Last().aborts == {} && t.Last().Up(i)
    ensures Target(t.Last(), i)
    ensures |t.Last().nodes[i].peers| == |bs| - 1
  {
    RunInv(t.states, t.events, |t.events|);
    NothingAborts(t.states, t.events, |t.events|);
    assert NodeOk(t.Last(), i);
    assert BriefAt(t.Last(), bs, i);
  }

  //
  // An election
  //

  /** The server counts answers; these have answered so far. */
  predicate Counting(n: Node, voted: seq<Id>, granted: nat, preVote: bool) {
    && n.election.voted == voted && n.election.granted == granted
    && !n.election.completed && n.election.preVote == preVote
    && n.election.timerStarted && !n.election.locked
    && n.role == if preVote then Follower else Candidate
  }

  function RequestFrom(i: Id, b: Brief, preVote: bool): VoteRequest {
    VoteRequest(i, b.term, TermOfLast(b.log), |b.log|, preVote)
  }

  lemma AsksEveryone(n: Node, i: nat, size: nat, vote: VoteRequest)
    requires ShapeOk(n, i, size)
    ensures forall j: nat :: j < size && j != i ==> AskVote(j, vote) in ToAll(n.peers, Some(vote))
  {
    forall j: nat | j < size && j != i ensures AskVote(j, vote) in ToAll(n.peers, Some(vote)) {
      PeerKnown(n, i, size, j);
      assert n.peers[PeerIndex(n.peers, j)].id == j;
    }
  }

  lemma TimesOut(t: Trace, bs: seq<Brief>, i: nat) returns (t': Trace)
    requires At(t, bs) && |bs| >= 2 && i < |bs| && bs[i].role == Follower
    ensures At(t', bs) && Extends(t, t') && t.Last().net <= t'.Last().net
    ensures Counting(t'.Last().nodes[i], [i], 1, true)
    ensures forall j: nat :: j < |bs| && j != i ==> AskVote(j, RequestFrom(i, bs[i], true)) in t'.Last().net
    ensures t'.Last().nodes[i].peers == t.Last().nodes[i].peers
  {
    Sound(t, bs, i);
    var n := t.Last().nodes[i];
    assert [] + [n.id] == [i];
    assert RequestElection(n) == Effect(n.(election := Election([i], 1, false, true, true, false, [])),
                                        Some(RequestFrom(i, bs[i], true)));
    AsksEveryone(n, i, |bs|, RequestFrom(i, bs[i], true));
    t' := Step1(t, bs, Timeout(i), bs[i]);
    assert bs[i := bs[i]] == bs;
  }

  lemma GrantsPreVote(t: Trace, bs: seq<Brief>, v: nat, i: nat) returns (t': Trace)
    requires At(t, bs) && i < |bs| && v < |bs| && v != i && bs[v].term == bs[i].term
    requires Core.UpToDate(bs[i].log, bs[v].log)
    requires AskVote(v, RequestFrom(i, bs[i], true)) in t.Last().net
    ensures At(t', bs) && Extends(t, t') && t.Last().net <= t'.Last().net
    ensures t'.Last().nodes == t.Last().nodes
    ensures AnswerVote(i, VoteResponse(v, true, bs[i].term, None)) in t'.Last().net
  {
    Sound(t, bs, v);
    var n, vote := t.Last().nodes[v], RequestFrom(i, bs[i], true);
    assert Ids(|bs|)[i] == i;
    assert HandleVoteRequest(n, vote, true) == (n, VoteResponse(v, true, bs[i].term, None));
    t' := Step1(t, bs, ReceiveVoteRequest(AskVote(v, vote), true), bs[v]);
    assert bs[v := bs[v]] == bs;
  }

  /** An answer of the server's own term is counted. */
  lemma CountsAnswer(n: Node, i: nat, size: nat, ballot: VoteResponse)
    requires ShapeOk(n, i, size) && i < size && ballot.serverId < size && ballot.serverId != i && ballot.term == n.term
    requires !n.election.completed && ballot.serverId !in n.election.voted
    ensures HandlePeerVoteResponse(n, ballot.serverId, ballot) == HandleVoteResponse(n, ballot)
    ensures |n.election.voted| + 1 < size ==>
      !Tally(n, ballot).election.completed
    ensures Tallied(n, ballot, Tally(n, ballot))
  {
    PeerKnown(n, i, size, ballot.serverId);
    TallyEffect(n, ballot);
    assert |n.peers| + 1 == size;
  }

  /** One more answer, which does not decide yet. */
  lemma Counts(t: Trace, bs: seq<Brief>, i: nat, v: nat, voted: seq<Id>, granted: nat, preVote: bool,
               ballot: VoteResponse)
    returns (t': Trace)
    requires At(t, bs) && i < |bs| && v < |bs| && v != i && v !in voted
    requires Counting(t.Last().nodes[i], voted, granted, preVote)
    requires granted + 1 <= |bs| / 2 && |voted| + 1 < |bs|
    requires ballot.serverId == v && ballot.accepted && ballot.term == bs[i].term
    requires AnswerVote(i, ballot) in t.Last().net
    ensures At(t', bs) && Extends(t, t') && t.Last().net <= t'.Last().net
    ensures Counting(t'.Last().nodes[i], voted + [v], granted + 1, preVote)
    ensures t'.Last().nodes[i].peers == t.Last().nodes[i].peers
  {
    Sound(t, bs, i);
    var n := t.Last().nodes[i];
    CountsAnswer(n, i, |bs|, ballot);
    assert HandleVoteResponse(n, ballot) == Effect(Tally(n, ballot), None);
    t' := Step1(t, bs, ReceiveVoteResponse(AnswerVote(i, ballot)), bs[i]);
    assert bs[i := bs[i]] == bs;
  }

  /** The answer that decides a round of pre-votes. */
  lemma Stands(t: Trace, bs: seq<Brief>, i: nat, v: nat, voted: seq<Id>, granted: nat) returns (t': Trace)
    requires At(t, bs) && i < |bs| && v < |bs| && v != i && v !in voted
    requires Counting(t.Last().nodes[i], voted, granted, true)
    requires granted + 1 > |bs| / 2 && |voted| + 1 < |bs|
    requires AnswerVote(i, VoteResponse(v, true, bs[i].term, None)) in t.Last().net
    ensures At(t', bs[i := Standing(bs[i])]) && Extends(t, t') && t.Last().net <= t'.Last().net
    ensures Counting(t'.Last().nodes[i], [i], 1, false)
    ensures forall j: nat :: j < |bs| && j != i ==>
      AskVote(j, RequestFrom(i, Standing(bs[i]), false)) in t'.Last().net
    ensures t'.Last().nodes[i].peers == t.Last().nodes[i].peers
  {
    Sound(t, bs, i);
    var n, ballot := t.Last().nodes[i], VoteResponse(v, true, bs[i].term, None);
    StandsNode(n, i, |bs|, ballot, granted, voted);
    AsksEveryone(n, i, |bs|, RequestFrom(i, Standing(bs[i]), false));
    t' := Step1(t, bs, ReceiveVoteResponse(AnswerVote(i, ballot)), Standing(bs[i]));
  }

  lemma StandsNode(n: Node, i: nat, size: nat, ballot: VoteResponse, granted: nat, voted: seq<Id>)
    requires ShapeOk(n, i, size) && i < size && ballot.serverId < size && ballot.serverId != i
    requires Counting(n, voted, granted, true) && ballot.serverId !in voted
    requires ballot.term == n.term && ballot.accepted
    requires granted + 1 > size / 2 && |voted| + 1 < size
    ensures var effect := HandlePeerVoteResponse(n, ballot.serverId, ballot);
      && effect.broadcast == Some(VoteRequest(i, n.term + 1, n.log.LastTerm(), n.log.End() - 1, false))
      && effect.node == n.(term := n.term + 1, votedFor := Some(i), role := Candidate,
                           election := Election([i], 1, false, false, true, false, []))
  {
    CountsAnswer(n, i, size, ballot);
    var n1 := Tally(n, ballot);
    assert HandleVoteResponse(n, ballot) == BecomeCandidate(n1);
    assert Fixed(n1);
    BecomeCandidateFixed(n1);
  }

  function Standing(b: Brief): Brief {
    b.(term := b.term + 1, role := Candidate)
  }

  /** A vote request of a later term makes its receiver a follower of it. */
  lemma Hears(t: Trace, bs: seq<Brief>, v: nat, vote: VoteRequest) returns (t': Trace)
    requires At(t, bs) && v < |bs| && vote.serverId < |bs| && !vote.preVote && vote.term > bs[v].term
    requires AskVote(v, vote) in t.Last().net
    ensures At(t', bs[v := bs[v].(term := vote.term, role := Follower)]) && Extends(t, t')
    ensures t.Last().net <= t'.Last().net
    ensures forall j :: 0 <= j < |bs| && j != v ==> t'.Last().nodes[j] == t.Last().nodes[j]
    ensures UpToDateRequest(vote, bs[v].log) ==>
      exists ballot :: IsGrant(ballot, v, vote.term) && AnswerVote(vote.serverId, ballot) in t'.Last().net
  {
    Sound(t, bs, v);
    var n := t.Last().nodes[v];
    assert Ids(|bs|)[vote.serverId] == vote.serverId;
    var (n', ballot) := HandleVoteRequest(n, vote, true);
    var n1 := Voter(n, vote);
    assert n1 == BecomeFollower(UpdateTerm(n, vote.term));
    assert TracksOf(n1.peers) == TracksOf(n.peers);
    t' := Step1(t, bs, ReceiveVoteRequest(AskVote(v, vote), true), bs[v].(term := vote.term, role := Follower));
    if UpToDateRequest(vote, bs[v].log) {
      assert IsGrant(ballot, v, vote.term) && AnswerVote(vote.serverId, ballot) in t'.Last().net;
    }
  }

  predicate UpToDateRequest(vote: VoteRequest, log: seq<Entry>) {
    || vote.lastLogTerm > TermOfLast(log)
    || (vote.lastLogTerm == TermOfLast(log) && vote.lastLogIndex >= |log|)
  }

  predicate IsGrant(ballot: VoteResponse, v: nat, term: nat) {
    ballot.serverId == v && ballot.accepted && ballot.term == term
  }

  /** The vote that decides an election. */
  lemma Wins(t: Trace, bs: seq<Brief>, i: nat, v: nat, voted: seq<Id>, granted: nat, ballot: VoteResponse)
    returns (t': Trace)
    requires At(t, bs) && i < |bs| && v < |bs| && v != i && v !in voted && |bs| >= 2
    requires Counting(t.Last().nodes[i], voted, granted, false)
    requires granted + 1 > |bs| / 2 && IsGrant(ballot, v, bs[i].term)
    requires AnswerVote(i, ballot) in t.Last().net
    ensures At(t', bs[i := Leading(bs[i], |bs|)]) && Extends(t, t') && t.Last().net <= t'.Last().net
    ensures |t'.events| == |t.events| + 1 && Elected(t'.states[|t.events|], t'.states[|t.events| + 1], i)
    ensures t'.states[|t.events|] == t.Last() && t'.states[|t.events| + 1] == t'.Last()
  {
    Sound(t, bs, i);
    var n := t.Last().nodes[i];
    CountsAnswer(n, i, |bs|, ballot);
    var n1 := Tally(n, ballot);
    assert Fixed(n1);
    assert HandleVoteResponse(n, ballot) == Effect(BecomeLeader(n1), None);
    BecomeLeaderFixed(n1);
    BecomeLeaderAmongOthers(n1);
    LeadingBrief(n1, BecomeLeader(n1), i, |bs|);
    t' := Step1(t, bs, ReceiveVoteResponse(AnswerVote(i, ballot)), Leading(bs[i], |bs|));
  }

  function Configured(term: nat, size: nat): Entry {
    Entry(term, Configuration(Ids(size), size), None, 0)
  }

  function WithNext(tracks: seq<Track>, next: nat): (r: seq<Track>)
    ensures |r| == |tracks| && forall k :: 0 <= k < |r| ==> r[k] == tracks[k].(next := next)
  {
    seq(|tracks|, k requires 0 <= k < |tracks| => tracks[k].(next := next))
  }

  function Leading(b: Brief, size: nat): Brief {
    var log := if b.quick == 0 then b.log + [Configured(b.term, size)] else b.log;
    b.(role := Leader, log := log, tracks := WithNext(b.tracks, |log| + 1))
  }

  lemma LeadingBrief(n: Node, r: Node, i: nat, size: nat)
    requires n.log.start == 1 && n.servers == Ids(size) && LeaderFrom(n, r)
    requires r.log == (if n.quickCommit == 0 then n.log.Append(InitialConfiguration(n)) else n.log)
    requires r.quickCommit == n.quickCommit && r.commitIndex == n.commitIndex && r.machine == n.machine
    ensures BriefOf(r) == Leading(BriefOf(n), size)
  {
    StartedTracks(n.peers, r.log.End());
  }

  lemma StartedTracks(peers: seq<Peer>, next: nat)
    ensures TracksOf(StartPeers(peers, next)) == WithNext(TracksOf(peers), next)
  {}

  //
  // Whole elections
  //

  function Voted(b: Brief, term: nat): Brief {
    b.(term := term, role := Follower)
  }

  function Won(b: Brief, size: nat): Brief {
    Leading(Standing(b), size)
  }

  /** In step `a` of the run, the server was elected; nobody has left the network since. */
  ghost predicate WonAt(t: Trace, bs: seq<Brief>, i: nat, b: Brief, a: nat)
    requires t.Ok()
  {
    && a < |t.events| && Elected(t.states[a], t.states[a + 1], i)
    && t.states[a + 1].nodes[i].term == b.term + 1
    && TracksOf(t.states[a].nodes[i].peers) == b.tracks
    && forall j: nat :: j < |bs| && j != i ==> AskVote(j, RequestFrom(i, Standing(b), false)) in t.Last().net
  }

  /** Of three servers, one stands for election when another would vote for it. */
  lemma Stand3(t: Trace, bs: seq<Brief>, i: nat, v: nat) returns (t': Trace)
    requires At(t, bs) && |bs| == 3 && i < 3 && v < 3 && v != i
    requires bs[i].role == Follower && bs[v].term == bs[i].term && Core.UpToDate(bs[i].log, bs[v].log)
    ensures At(t', bs[i := Standing(bs[i])]) && Extends(t, t')
    ensures Counting(t'.Last().nodes[i], [i], 1, false)
    ensures forall j: nat :: j < |bs| && j != i ==>
      AskVote(j, RequestFrom(i, Standing(bs[i]), false)) in t'.Last().net
  {
    var t1 := TimesOut(t, bs, i);
    var t2 := GrantsPreVote(t1, bs, v, i);
    t' := Stands(t2, bs, i, v, [i], 1);
  }

  /** Of three servers, one that stands is elected with the vote of another. */
  lemma Win3(t: Trace, bs: seq<Brief>, i: nat, v: nat) returns (t': Trace, a: nat)
    requires At(t, bs) && |bs| == 3 && i < 3 && v < 3 && v != i
    requires bs[i].role == Candidate && bs[v].term < bs[i].term && Core.UpToDate(bs[i].log, bs[v].log)
    requires Counting(t.Last().nodes[i], [i], 1, false)
    requires AskVote(v, RequestFrom(i, bs[i], false)) in t.Last().net
    ensures At(t', bs[v := Voted(bs[v], bs[i].term)][i := Leading(bs[i], 3)])
    ensures Extends(t, t') && t.Last().net <= t'.Last().net
    ensures a < |t'.events| && Elected(t'.states[a], t'.states[a + 1], i)
    ensures t'.states[a + 1].nodes[i].term == bs[i].term && TracksOf(t'.states[a].nodes[i].peers) == bs[i].tracks
  {
    var vote := RequestFrom(i, bs[i], false);
    var t1 := Hears(t, bs, v, vote);
    var bs1 := bs[v := Voted(bs[v], vote.term)];
    var ballot :| IsGrant(ballot, v, vote.term) && AnswerVote(i, ballot) in t1.Last().net;
    t' := Wins(t1, bs1, i, v, [i], 1, ballot);
    a := |t1.events|;
    Sound(t1, bs1, i);
    Sound(t', bs1[i := Leading(bs[i], 3)], i);
  }

  /** Of three servers, one is elected with the vote of another. */
  lemma Elect3(t: Trace, bs: seq<Brief>, i: nat, v: nat) returns (t': Trace, a: nat)
    requires At(t, bs) && |bs| == 3 && i < 3 && v < 3 && v != i
    requires bs[i].role == Follower && bs[v].term == bs[i].term && Core.UpToDate(bs[i].log, bs[v].log)
    ensures At(t', bs[v := Voted(bs[v], bs[i].term + 1)][i := Won(bs[i], 3)]) && Extends(t, t')
    ensures WonAt(t', bs, i, bs[i], a)
  {
    var t1 := Stand3(t, bs, i, v);
    t', a := Win3(t1, bs[i := Standing(bs[i])], i, v);
    assert bs[i := Standing(bs[i])][v := Voted(bs[v], bs[i].term + 1)][i := Won(bs[i], 3)]
      == bs[v := Voted(bs[v], bs[i].term + 1)][i := Won(bs[i], 3)];
  }

  /** Of four servers, one stands for election when two others would vote for it. */
  lemma Stand4(t: Trace, bs: seq<Brief>, i: nat, v: nat, w: nat) returns (t': Trace)
    requires At(t, bs) && |bs| == 4 && i < 4 && v < 4 && w < 4 && v != i && w != i && v != w
    requires bs[i].role == Follower && bs[v].term == bs[w].term == bs[i].term
    requires Core.UpToDate(bs[i].log, bs[v].log) && Core.UpToDate(bs[i].log, bs[w].log)
    ensures At(t', bs[i := Standing(bs[i])]) && Extends(t, t')
    ensures Counting(t'.Last().nodes[i], [i], 1, false)
    ensures forall j: nat :: j < |bs| && j != i ==>
      AskVote(j, RequestFrom(i, Standing(bs[i]), false)) in t'.Last().net
  {
    var t1 := TimesOut(t, bs, i);
    var t2 := GrantsPreVote(t1, bs, v, i);
    var t3 := GrantsPreVote(t2, bs, w, i);
    var t4 := Counts(t3, bs, i, v, [i], 1, true, VoteResponse(v, true, bs[i].term, None));
    t' := Stands(t4, bs, i, w, [i] + [v], 2);
  }

  /** Of four servers, one that stands is elected with the votes of two others. */
  lemma Elect4(t: Trace, bs: seq<Brief>, i: nat, v: nat, w: nat) returns (t': Trace, a: nat)
    requires At(t, bs) && |bs| == 4 && i < 4 && v < 4 && w < 4 && v != i && w != i && v != w
    requires bs[i].role == Candidate && bs[v].term < bs[i].term && bs[w].term < bs[i].term
    requires Core.UpToDate(bs[i].log, bs[v].log) && Core.UpToDate(bs[i].log, bs[w].log)
    requires Counting(t.Last().nodes[i], [i], 1, false)
    requires forall j: nat :: j < |bs| && j != i ==> AskVote(j, RequestFrom(i, bs[i], false)) in t.Last().net
    ensures At(t', bs[v := Voted(bs[v], bs[i].term)][w := Voted(bs[w], bs[i].term)][i := Leading(bs[i], 4)])
    ensures Extends(t, t') && t.Last().net <= t'.Last().net
    ensures a < |t'.events| && Elected(t'.states[a], t'.states[a + 1], i)
    ensures t'.states[a + 1].nodes[i].term == bs[i].term && TracksOf(t'.states[a].nodes[i].peers) == bs[i].tracks
  {
    var t1, first := Votes(t, bs, i, v);
    var bs1 := bs[v := Voted(bs[v], bs[i].term)];
    var t2, second := Votes(t1, bs1, i, w);
    t', a := CountsTwo(t2, bs1[w := Voted(bs[w], bs[i].term)], i, first, second);
  }

  /** A server of an earlier term, with no better log, votes for the candidate. */
  lemma Votes(t: Trace, bs: seq<Brief>, i: nat, v: nat) returns (t': Trace, ballot: VoteResponse)
    requires At(t, bs) && i < |bs| && v < |bs| && v != i
    requires bs[v].term < bs[i].term && Core.UpToDate(bs[i].log, bs[v].log)
    requires AskVote(v, RequestFrom(i, bs[i], false)) in t.Last().net
    ensures At(t', bs[v := Voted(bs[v], bs[i].term)]) && Extends(t, t') && t.Last().net <= t'.Last().net
    ensures forall j :: 0 <= j < |bs| && j != v ==> t'.Last().nodes[j] == t.Last().nodes[j]
    ensures IsGrant(ballot, v, bs[i].term) && AnswerVote(i, ballot) in t'.Last().net
  {
    var vote := RequestFrom(i, bs[i], false);
    t' := Hears(t, bs, v, vote);
    ballot :| IsGrant(ballot, v, vote.term) && AnswerVote(i, ballot) in t'.Last().net;
  }

  lemma CountsTwo(t: Trace, bs: seq<Brief>, i: nat, first: VoteResponse, second: VoteResponse)
    returns (t': Trace, a: nat)
    requires At(t, bs) && |bs| == 4 && i < 4 && first.serverId < 4 && second.serverId < 4
    requires first.serverId != i && second.serverId != i && first.serverId != second.serverId
    requires IsGrant(first, first.serverId, bs[i].term) && IsGrant(second, second.serverId, bs[i].term)
    requires AnswerVote(i, first) in t.Last().net && AnswerVote(i, second) in t.Last().net
    requires Counting(t.Last().nodes[i], [i], 1, false)
    ensures At(t', bs[i := Leading(bs[i], 4)]) && Extends(t, t') && t.Last().net <= t'.Last().net
    ensures a < |t'.events| && Elected(t'.states[a], t'.states[a + 1], i)
    ensures t'.states[a + 1].nodes[i].term == bs[i].term && TracksOf(t'.states[a].nodes[i].peers) == bs[i].tracks
  {
    var t1 := Counts(t, bs, i, first.serverId, [i], 1, false, first);
    t' := Wins(t1, bs, i, second.serverId, [i] + [first.serverId], 2, second);
    a := |t1.events|;
    Sound(t1, bs, i);
    Sound(t', bs[i := Leading(bs[i], 4)], i);
  }

  //
  // Publishing
  //

  /** A leader appends a message of a client. */
  lemma Publishes(t: Trace, bs: seq<Brief>, i: nat, bytes: seq<bv8>) returns (t': Trace, e: Entry)
    requires At(t, bs) && |bs| >= 2 && i < |bs| && bs[i].role == Leader
    ensures e.term == bs[i].term && e.value == Application(bytes)
    ensures At(t', bs[i := bs[i].(log := bs[i].log + [e])]) && Extends(t, t')
    ensures t.Last().net <= t'.Last().net
  {
    Sound(t, bs, i);
    var n := t.Last().nodes[i];
    var client: Id := 0;
    var id := Sessions.Lookup(Sessions.Ensure(n.sessions, client), client).lastReceived + 1;
    var message := Message(id, bytes);
    var request := PublishRequest(client, [message]);
    e := Entry(n.term, Application(bytes), Some(client), id);
    var n0 := n.(sessions := Sessions.Ensure(n.sessions, client));
    assert [message][1..] == [];
    assert ReceiveMessages(n0, client, [message]).log == n.log.Append(e);
    ReceivedKeeps(n0, client, [message]);
    t' := Step1(t, bs, ReceivePublish(i, request), bs[i].(log := bs[i].log + [e]));
  }

  //
  // Append requests and responses
  //

  /** The place of a server among the peers of another. */
  function Place(i: nat, j: nat): nat
    requires i != j
  {
    if j < i then j else j - 1
  }

  lemma {:induction false} OthersAt(size: nat, i: nat, k: nat)
    requires k < |Others(size, i)|
    ensures Others(size, i)[k] == if k < i then k else k + 1
  {
    if size > 0 && k < |Others(size - 1, i)| {
      OthersAt(size - 1, i, k);
    }
  }

  lemma PeerPlace(n: Node, i: nat, j: nat, size: nat)
    requires ShapeOk(n, i, size) && i < size && j < size && i != j
    ensures Place(i, j) < |n.peers| && n.peers[Place(i, j)].id == j && PeerIndex(n.peers, j) == Place(i, j)
  {
    PeerKnown(n, i, size, j);
    OthersAt(size, i, Place(i, j));
    OthersAt(size, i, PeerIndex(n.peers, j));
  }

  /** The request of a leader for its peer `j`. */
  function AskOf(i: nat, b: Brief, j: nat, batch: nat): AppendRequest
    requires i != j && Place(i, j) < |b.tracks| && 1 <= b.tracks[Place(i, j)].next <= |b.log| + 1
  {
    var last := b.tracks[Place(i, j)].next - 1;
    AppendRequest(i, b.term, TermOfLast(b.log[..last]), last, b.quick,
                  b.log[last..Least(|b.log|, last + batch)], None)
  }

  lemma Sends(t: Trace, bs: seq<Brief>, i: nat, j: nat, batch: nat) returns (t': Trace)
    requires At(t, bs) && i < |bs| && j < |bs| && i != j && bs[i].role == Leader
    requires Place(i, j) < |bs[i].tracks| && 1 <= bs[i].tracks[Place(i, j)].next <= |bs[i].log| + 1
    ensures At(t', bs) && Extends(t, t') && t.Last().net <= t'.Last().net
    ensures AskAppend(j, AskOf(i, bs[i], j, batch)) in t'.Last().net
    ensures |t'.events| == |t.events| + 1 && t'.states[|t.events|] == t.Last()
    ensures t'.events[|t.events|] == SendAppend(i, Place(i, j), |bs[i].log| + 1, batch)
  {
    Sound(t, bs, i);
    var n := t.Last().nodes[i];
    PeerPlace(n, i, j, |bs|);
    var e := SendAppend(i, Place(i, j), |bs[i].log| + 1, batch);
    AskIs(n, i, j, |bs|, batch);
    t' := Step1(t, bs, e, bs[i]);
    assert bs[i := bs[i]] == bs;
  }

  lemma AskIs(n: Node, i: nat, j: nat, size: nat, batch: nat)
    requires ShapeOk(n, i, size) && i < size && j < size && i != j && n.role == Leader
    requires Place(i, j) < |n.peers| && 1 <= n.peers[Place(i, j)].nextIndex <= n.log.End()
    ensures CanCreateAppendRequest(n, n.peers[Place(i, j)])
    ensures CreateAppendRequest(n, n.peers[Place(i, j)], |n.log.entries| + 1, batch) == AskOf(i, BriefOf(n), j, batch)
  {
    var last := n.peers[Place(i, j)].nextIndex - 1;
    PieceAfter(n.log, last, batch);
    assert !TransferDue(n.log, last, |n.log.entries| + 1);
  }

  lemma PieceAfter(log: Log, last: nat, batch: nat)
    requires log.start == 1 && last < log.End()
    ensures log.TermAt(last) == TermOfLast(log.entries[..last])
    ensures NextEntries(log, last, batch) == log.entries[last..Least(|log.entries|, last + batch)]
  {
    assert last > 0 ==> log.entries[..last][last - 1] == log.At(last);
  }

  predicate FitsIn(log: seq<Entry>, request: AppendRequest) {
    || request.lastLogIndex == 0
    || (request.lastLogIndex <= |log| && request.lastLogTerm == log[request.lastLogIndex - 1].term)
  }

  /** A request that a server may get: of no earlier term, and not of a leader's own. */
  predicate MayGet(bs: seq<Brief>, j: nat, request: AppendRequest) {
    && j < |bs| && request.serverId < |bs| && request.serverId != j && request.transfer.None?
    && request.term >= bs[j].term && (request.term == bs[j].term ==> bs[j].role != Leader)
  }

  lemma Refuses(t: Trace, bs: seq<Brief>, j: nat, request: AppendRequest) returns (t': Trace)
    requires At(t, bs) && MayGet(bs, j, request) && !FitsIn(bs[j].log, request)
    requires AskAppend(j, request) in t.Last().net
    ensures At(t', bs[j := Voted(bs[j], request.term)]) && Extends(t, t') && t.Last().net <= t'.Last().net
    ensures AnswerAppend(request.serverId, AppendResponse(j, false, request.term, |bs[j].log| + 1, false))
         in t'.Last().net
  {
    Sound(t, bs, j);
    RefusesNode(t.Last().nodes[j], j, |bs|, request);
    t' := Step1(t, bs, ReceiveAppendRequest(AskAppend(j, request)), Voted(bs[j], request.term));
  }

  lemma RefusesNode(n: Node, j: nat, size: nat, request: AppendRequest)
    requires ShapeOk(n, j, size) && Ready(n) && request.serverId < size && request.transfer.None?
    requires request.term >= n.term && (request.term == n.term ==> n.role != Leader)
    requires !FitsIn(n.log.entries, request)
    ensures AppendRequestAllowed(n, request)
    ensures var (r, response) := HandleAppendRequest(n, request);
      && BriefOf(r) == Voted(BriefOf(n), request.term) && Ready(r) && r.role == Follower
      && response == AppendResponse(j, false, request.term, |n.log.entries| + 1, false)
  {
    assert Ids(size)[request.serverId] == request.serverId;
    NotFitting(n, request);
    AcknowledgeEffect(n, request);
    AcknowledgedBrief(n, request);
  }

  lemma NotFitting(n: Node, request: AppendRequest)
    requires n.Retains() && !n.transferring && request.serverId in n.servers && request.transfer.None?
    requires !Fits(n.log, request) && !(n.role == Leader && request.term == n.term)
    ensures AppendRequestAllowed(n, request)
    ensures var n1 := Acknowledge(n, request);
      HandleAppendRequest(n, request) == (n1, AppendResponse(n.id, false, n1.term, n1.log.End(), false))
  {
    AcknowledgedReplicates(n, request);
    var n1 := Acknowledge(n, request);
    ReplicateRejects(n1, request, n1, false);
  }

  lemma AcknowledgedBrief(n: Node, request: AppendRequest)
    requires !(n.role == Leader && request.term == n.term) && request.term >= n.term
    requires Ready(n) && !n.catchingUp
    ensures BriefOf(Acknowledge(n, request)) == Voted(BriefOf(n), request.term)
    ensures Ready(Acknowledge(n, request))
  {
    var n1 := if request.term > n.term then BecomeFollower(UpdateTerm(n, request.term)) else n;
    assert TracksOf(n1.peers) == TracksOf(n.peers);
    assert TracksOf(Acknowledge(n, request).peers) == TracksOf(n.peers);
  }

  /** The entries after one index up to another, as they are handed to the machine. */
  function HandOver(from: nat, to: nat, log: seq<Entry>): (r: seq<Applied>)
    requires from <= to <= |log|
    ensures |r| == to - from && forall k :: 0 <= k < |r| ==> r[k] == Applied(from + 1 + k, log[from + k].value)
  {
    seq(to - from, k requires 0 <= k < to - from => Applied(from + 1 + k, log[from + k].value))
  }

  /** The brief of a server that commits up to this index, or as far as its log goes. */
  function Committing(b: Brief, index: nat): Brief {
    var quick := Greatest(b.quick, index);
    var commit := Greatest(b.commit, Least(quick, |b.log|));
    b.(quick := quick, commit := commit,
       machine := b.machine + if commit <= |b.log| then HandOver(b.commit, commit, b.log) else [])
  }

  lemma CommitBrief(n: Node, index: nat)
    requires n.Retains() && Fixed(n) && n.log.start == 1 && Ready(n)
    ensures BriefOf(Commit(n, index)) == Committing(BriefOf(n), index) && Ready(Commit(n, index))
  {
    var r := Commit(n, index);
    CommitFixed(n, index);
    CommitHands(n, index);
    var handed := r.machine[|n.machine|..];
    if r.commitIndex <= |n.log.entries| {
      forall k | 0 <= k < |handed|
        ensures handed[k] == Applied(n.commitIndex + 1 + k, n.log.entries[n.commitIndex + k].value)
      {
        assert IsEntryAt(r.machine[|n.machine| + k], r.log);
      }
      assert handed == HandOver(n.commitIndex, r.commitIndex, n.log.entries);
    }
    assert r.machine == n.machine + handed;
  }

  function Took(b: Brief, request: AppendRequest): Brief
    requires request.lastLogIndex <= |b.log|
  {
    Committing(b.(term := request.term, role := Follower,
                  log := MergeAt(b.log, request.lastLogIndex, request.entries)),
               request.commitIndex)
  }

  lemma Accepts(t: Trace, bs: seq<Brief>, j: nat, request: AppendRequest) returns (t': Trace)
    requires At(t, bs) && MayGet(bs, j, request) && FitsIn(bs[j].log, request)
    requires AskAppend(j, request) in t.Last().net
    ensures At(t', bs[j := Took(bs[j], request)]) && Extends(t, t') && t.Last().net <= t'.Last().net
    ensures AnswerAppend(request.serverId, AnswerTo(j, request)) in t'.Last().net
    ensures |t'.events| == |t.events| + 1
    ensures t'.events[|t.events|] == ReceiveAppendRequest(AskAppend(j, request))
  {
    AcceptsAt(t, bs, j, request);
    OnRequest(t.Last(), AskAppend(j, request));
    t' := Step1(t, bs, ReceiveAppendRequest(AskAppend(j, request)), Took(bs[j], request));
  }

  /** What handling a request makes of the group. */
  lemma OnRequest(g: Group, p: Packet)
    requires p in g.net && p.AskAppend? && Target(g, p.to) && AppendRequestAllowed(g.nodes[p.to], p.append)
    ensures var g' := Next(g, ReceiveAppendRequest(p));
      var (n', response) := HandleAppendRequest(g.nodes[p.to], p.append);
      && |g'.nodes| == |g.nodes| && g'.nodes[p.to] == n'
      && g.net <= g'.net && AnswerAppend(p.append.serverId, response) in g'.net
  {}

  lemma AcceptsAt(t: Trace, bs: seq<Brief>, j: nat, request: AppendRequest)
    requires At(t, bs) && MayGet(bs, j, request) && FitsIn(bs[j].log, request)
    requires AskAppend(j, request) in t.Last().net
    ensures Target(t.Last(), j) && Accepting(t.Last().nodes[j], request)
    ensures var (r, response) := HandleAppendRequest(t.Last().nodes[j], request);
      && BriefOf(r) == Took(bs[j], request) && Ready(r) && r.role == Follower
      && response == AppendResponse(j, true, request.term,
                                    request.lastLogIndex + |request.entries| + 1, false)
  {
    Sound(t, bs, j);
    RunInv(t.states, t.events, |t.events|);
    assert PacketOk(t.Last(), AskAppend(j, request));
    AcceptsNode(t.Last().nodes[j], j, |bs|, request);
  }

  lemma AcceptsNode(n: Node, j: nat, size: nat, request: AppendRequest)
    requires ShapeOk(n, j, size) && Ready(n) && request.serverId < size && request.transfer.None?
    requires request.term >= n.term && (request.term == n.term ==> n.role != Leader)
    requires SameServers(Ids(size), request.entries) && FitsIn(n.log.entries, request)
    ensures AppendRequestAllowed(n, request) && request.serverId in n.servers
    ensures var (r, response) := HandleAppendRequest(n, request);
      && BriefOf(r) == Took(BriefOf(n), request) && Ready(r) && r.role == Follower
      && response == AppendResponse(j, true, request.term,
                                    request.lastLogIndex + |request.entries| + 1, false)
  {
    assert Ids(size)[request.serverId] == request.serverId;
    assert AppendRequestAllowed(n, request);
    AcknowledgedReplicates(n, request);
    AcknowledgeEffect(n, request);
    AcknowledgedBrief(n, request);
    var n1 := Acknowledge(n, request);
    ReplicateAccepts(n1, request);
    TakenBrief(n1, request);
  }

  lemma TakenBrief(n: Node, request: AppendRequest)
    requires n.Retains() && Fixed(n) && n.log.start == 1 && Ready(n) && n.role == Follower
    requires request.lastLogIndex <= |n.log.entries| && n.term == request.term
    requires SameServers(n.servers, request.entries)
    ensures var r := Commit(TakeEntries(n, request), request.commitIndex);
      BriefOf(r) == Took(BriefOf(n), request) && Ready(r)
  {
    var n1 := TakeEntries(n, request);
    MergeKeepsServers(n.servers, n.log.entries, request.lastLogIndex, request.entries);
    if request.entries == [] {
      assert Agreement(n.log.entries[request.lastLogIndex..], []) == 0;
    }
    assert n1.log.entries == MergeAt(n.log.entries, request.lastLogIndex, request.entries);
    CommitBrief(n1, request.commitIndex);
  }

  function Rewound(track: Track, end: nat): Track {
    var peer := RewoundTo(Peer(0, track.next, track.matched, track.step, true), end);
    Track(peer.nextIndex, peer.matched, peer.rewindStep)
  }

  lemma HearsRefusal(t: Trace, bs: seq<Brief>, i: nat, j: nat, end: nat) returns (t': Trace)
    requires At(t, bs) && i < |bs| && j < |bs| && i != j && bs[i].role == Leader
    requires Place(i, j) < |bs[i].tracks|
    requires AnswerAppend(i, AppendResponse(j, false, bs[i].term, end, false)) in t.Last().net
    ensures At(t', bs[i := bs[i].(tracks := bs[i].tracks[Place(i, j) := Rewound(bs[i].tracks[Place(i, j)], end)])])
    ensures Extends(t, t') && t.Last().net <= t'.Last().net
  {
    Sound(t, bs, i);
    var n, k := t.Last().nodes[i], Place(i, j);
    PeerPlace(n, i, j, |bs|);
    var response := AppendResponse(j, false, n.term, end, false);
    ResponseRejected(n, response, k);
    var n' := n.(peers := n.peers[k := Rewind(n.peers[k], response)]);
    assert HandlePeerAppendResponse(n, j, response).0 == n';
    assert TracksOf(n'.peers) == TracksOf(n.peers)[k := Rewound(TracksOf(n.peers)[k], end)];
    t' := Step1(t, bs, ReceiveAppendResponse(AnswerAppend(i, response)), BriefOf(n'));
  }

  function MatchedOf(tracks: seq<Track>): (r: seq<nat>)
    ensures |r| == |tracks| && forall k :: 0 <= k < |r| ==> r[k] == tracks[k].matched
  {
    if tracks == [] then [] else [tracks[0].matched] + MatchedOf(tracks[1..])
  }

  /** A leader's brief with what peer `j` has now matched. */
  function MatchedBy(i: nat, b: Brief, j: nat, nextIndex: nat): Brief
    requires i != j && Place(i, j) < |b.tracks| && nextIndex >= 1
  {
    b.(tracks := b.tracks[Place(i, j) := Track(nextIndex, nextIndex - 1, 1)])
  }

  lemma HearsAcceptance(t: Trace, bs: seq<Brief>, i: nat, j: nat, nextIndex: nat, index: nat) returns (t': Trace)
    requires At(t, bs) && i < |bs| && j < |bs| && i != j && bs[i].role == Leader
    requires Place(i, j) < |bs[i].tracks| && nextIndex >= 1
    requires AnswerAppend(i, AppendResponse(j, true, bs[i].term, nextIndex, false)) in t.Last().net
    requires index == Median([|bs[i].log|] + MatchedOf(MatchedBy(i, bs[i], j, nextIndex).tracks))
    ensures At(t', bs[i := Committing(MatchedBy(i, bs[i], j, nextIndex), index)])
    ensures Extends(t, t') && t.Last().net <= t'.Last().net
    ensures |t'.events| == |t.events| + 1 && t'.states[|t.events|] == t.Last()
    ensures index >= 1 ==> CommitsAt(t'.states, t'.events, |t.events|, i, index)
  {
    Sound(t, bs, i);
    var n := t.Last().nodes[i];
    var response := AppendResponse(j, true, n.term, nextIndex, false);
    var r := AcceptedNode(n, i, j, |bs|, nextIndex, index);
    t' := Step1(t, bs, ReceiveAppendResponse(AnswerAppend(i, response)), BriefOf(r));
  }

  lemma AcceptedNode(n: Node, i: nat, j: nat, size: nat, nextIndex: nat, index: nat) returns (r: Node)
    requires ShapeOk(n, i, size) && Ready(n) && i < size && j < size && i != j && n.role == Leader
    requires nextIndex >= 1 && Place(i, j) < |n.peers|
    requires index == Median([|n.log.entries|] + MatchedOf(MatchedBy(i, BriefOf(n), j, nextIndex).tracks))
    ensures var response := AppendResponse(j, true, n.term, nextIndex, false);
      r == HandlePeerAppendResponse(n, j, response).0 && CommitOf(n, j, response) == Some(index)
    ensures BriefOf(r) == Committing(MatchedBy(i, BriefOf(n), j, nextIndex), index) && Ready(r)
    ensures r.role == Leader
  {
    var response := AppendResponse(j, true, n.term, nextIndex, false);
    PeerPlace(n, i, j, size);
    var n1 := MatchedPeer(n, response);
    MatchedBrief(n, n1, Place(i, j), i, j, nextIndex);
    AppendResponseCases(n, response);
    r := CommittedNode(n1, index);
  }

  lemma CommittedNode(n: Node, index: nat) returns (r: Node)
    requires n.Retains() && Fixed(n) && n.log.start == 1 && Ready(n)
    ensures r == Commit(n, index) && BriefOf(r) == Committing(BriefOf(n), index) && Ready(r)
    ensures r.role == n.role
  {
    r := Commit(n, index);
    CommitBrief(n, index);
    CommitKeepsTerm(n, index);
  }

  lemma MatchedBrief(n: Node, n1: Node, k: nat, i: nat, j: nat, nextIndex: nat)
    requires i != j && k == Place(i, j) < |n.peers| && nextIndex >= 1 && n.log.start == 1
    requires n1 == n.(peers := n.peers[k := n.peers[k].(rewindStep := 1, nextIndex := nextIndex,
                                                        matched := nextIndex - 1)])
    ensures BriefOf(n1) == MatchedBy(i, BriefOf(n), j, nextIndex)
    ensures Reached(n1) == [|n.log.entries|] + MatchedOf(MatchedBy(i, BriefOf(n), j, nextIndex).tracks)
  {
    assert TracksOf(n1.peers) == MatchedBy(i, BriefOf(n), j, nextIndex).tracks;
    assert Matched(n1.peers) == MatchedOf(TracksOf(n1.peers));
  }

  //
  // Rounds
  //

  /** Whether a leader can send to this peer, and the peer may get it. */
  predicate CanSend(bs: seq<Brief>, i: nat, j: nat) {
    && i < |bs| && j < |bs| && i != j && bs[i].role == Leader && Place(i, j) < |bs[i].tracks|
    && 1 <= bs[i].tracks[Place(i, j)].next <= |bs[i].log| + 1
    && bs[j].term <= bs[i].term && (bs[j].term == bs[i].term ==> bs[j].role != Leader)
  }

  /** The leader's request is refused, and it has not heard of that. */
  lemma Refused(t: Trace, bs: seq<Brief>, i: nat, j: nat) returns (t': Trace)
    requires At(t, bs) && CanSend(bs, i, j) && !FitsIn(bs[j].log, AskOf(i, bs[i], j, 1))
    ensures At(t', bs[j := Voted(bs[j], bs[i].term)]) && Extends(t, t') && t.Last().net <= t'.Last().net
    ensures AnswerAppend(i, AppendResponse(j, false, bs[i].term, |bs[j].log| + 1, false)) in t'.Last().net
  {
    var t1 := Sends(t, bs, i, j, 1);
    t' := Refuses(t1, bs, j, AskOf(i, bs[i], j, 1));
  }

  /** A peer without a log refuses, and the leader goes back to the start. */
  lemma BackToStart(t: Trace, bs: seq<Brief>, i: nat, j: nat) returns (t': Trace)
    requires At(t, bs) && CanSend(bs, i, j) && bs[j].log == [] && bs[i].tracks[Place(i, j)].next > 1
    ensures At(t', bs[j := Voted(bs[j], bs[i].term)][i := StartingAt(i, bs[i], j)])
    ensures Extends(t, t') && t.Last().net <= t'.Last().net
  {
    var t1 := Refused(t, bs, i, j);
    var bs1 := bs[j := Voted(bs[j], bs[i].term)];
    t' := HearsRefusal(t1, bs1, i, j, 1);
  }

  function StartingAt(i: nat, b: Brief, j: nat): Brief
    requires i != j && Place(i, j) < |b.tracks|
  {
    b.(tracks := b.tracks[Place(i, j) := Track(1, b.tracks[Place(i, j)].matched, 1)])
  }

  /** The leader's request is accepted, and it has not heard of that. */
  lemma Taken(t: Trace, bs: seq<Brief>, i: nat, j: nat, batch: nat) returns (t': Trace)
    requires At(t, bs) && CanSend(bs, i, j) && FitsIn(bs[j].log, AskOf(i, bs[i], j, batch))
    ensures var ask := AskOf(i, bs[i], j, batch);
      && At(t', bs[j := Took(bs[j], ask)])
      && AnswerAppend(i, AnswerTo(j, ask)) in t'.Last().net
      && TakenAt(t', SendAppend(i, Place(i, j), |bs[i].log| + 1, batch), j, bs[j], ask, |t.events|)
    ensures Extends(t, t') && t.Last().net <= t'.Last().net
  {
    t' := Takes(t, bs, i, j, batch, AskOf(i, bs[i], j, batch));
  }

  function AnswerTo(j: nat, ask: AppendRequest): AppendResponse {
    AppendResponse(j, true, ask.term, ask.lastLogIndex + |ask.entries| + 1, false)
  }

  lemma Takes(t: Trace, bs: seq<Brief>, i: nat, j: nat, batch: nat, ask: AppendRequest) returns (t': Trace)
    requires At(t, bs) && CanSend(bs, i, j) && FitsIn(bs[j].log, ask) && ask == AskOf(i, bs[i], j, batch)
    ensures At(t', bs[j := Took(bs[j], ask)]) && Extends(t, t') && t.Last().net <= t'.Last().net
    ensures AnswerAppend(i, AnswerTo(j, ask)) in t'.Last().net
    ensures TakenAt(t', SendAppend(i, Place(i, j), |bs[i].log| + 1, batch), j, bs[j], ask, |t.events|)
  {
    var t1 := Sends(t, bs, i, j, batch);
    t' := Accepts(t1, bs, j, ask);
    ExtendsFurther(t, t1, t');
    TakenThen(t1, t', bs, j, ask, SendAppend(i, Place(i, j), |bs[i].log| + 1, batch), |t.events|);
  }

  lemma ExtendsFurther(t: Trace, t1: Trace, t': Trace)
    requires Extends(t, t1) && Extends(t1, t')
    ensures Extends(t, t')
  {}

  lemma TakenThen(
    t: Trace, t': Trace, bs: seq<Brief>, j: nat, ask: AppendRequest, send: Event, s: nat)
    requires At(t, bs) && MayGet(bs, j, ask) && FitsIn(bs[j].log, ask) && AskAppend(j, ask) in t.Last().net
    requires At(t', bs[j := Took(bs[j], ask)]) && Extends(t, t')
    requires |t.events| == s + 1 && |t'.events| == s + 2
    requires t.events[s] == send && t'.events[s + 1] == ReceiveAppendRequest(AskAppend(j, ask))
    ensures TakenAt(t', send, j, bs[j], ask, s)
  {
    BriefThen(t, bs, j);
    AcceptsAt(t, bs, j, ask);
    BriefThen(t', bs[j := Took(bs[j], ask)], j);
    assert t'.states[s + 1] == t.Last();
  }

  lemma BriefThen(t: Trace, bs: seq<Brief>, j: nat)
    requires At(t, bs) && j < |bs|
    ensures j < |t.Last().nodes| && BriefOf(t.Last().nodes[j]) == bs[j]
  {
    Sound(t, bs, j);
  }

  /** In step `s` a leader sends the request, and in the next one this server accepts it. */
  ghost predicate TakenAt(t: Trace, send: Event, j: nat, b: Brief, ask: AppendRequest, s: nat) {
    && |t.states| == |t.events| + 1 && s + 1 < |t.events| && ask.lastLogIndex <= |b.log|
    && t.events[s] == send && t.events[s + 1] == ReceiveAppendRequest(AskAppend(j, ask))
    && j < |t.states[s + 1].nodes| && j < |t.states[s + 2].nodes|
    && var n := t.states[s + 1].nodes[j];
    && BriefOf(n) == b && BriefOf(t.states[s + 2].nodes[j]) == Took(b, ask) && Accepting(n, ask)
  }
}
