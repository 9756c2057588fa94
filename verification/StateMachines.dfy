/**
 When state machines agree: every leader is voted for and begins with nothing matched, every new commit
 of a leader lands on an entry of its own term, and no request makes its receiver commit what it did not
 verify.
 */
module StateMachines {
  import opened Types
  import opened Log
  import opened Handlers
  import opened NodeFacts
  import opened HandedOver
  import opened Core
  import opened Group
  import opened GroupInv
  import opened GroupSteps
  import opened Safety
  import opened QuorumCommits
  import opened Applying

  //
  // The runs
  //

  /** Whoever is elected in this step has peers that matched nothing. */
  predicate FreshAt(g: Group, g': Group) {
    forall i :: 0 <= i < |g.nodes| && Elected(g, g', i) ==> MatchesNothing(g.nodes[i].peers)
  }

  /** If a leader raises its commit in this step, it is to an entry of its own term. */
  predicate OwnTermCommit(g: Group, e: Event) {
    e.ReceiveAppendResponse? && e.p.AnswerAppend? && e.p.to < |g.nodes| && g.nodes[e.p.to].Retains() ==>
      var n := g.nodes[e.p.to];
      match CommitOf(n, e.p.answer.serverId, e.p.answer)
      case None => true
      case Some(index) => index > n.quickCommit ==> OwnTermAt(n, index)
  }

  /** If a server accepts a request in this step, it commits nothing that the request did not verify. */
  ghost predicate VerifiedCommit(g: Group, e: Event) {
    e.ReceiveAppendRequest? && e.p.AskAppend? && e.p.to < |g.nodes| && Accepting(g.nodes[e.p.to], e.p.append) ==>
      VerifiedOnly(g.nodes[e.p.to], e.p.append)
  }

  ghost predicate CleanAt(states: seq<Group>, events: seq<Event>, k: nat)
    requires |states| == |events| + 1 && k < |events|
  {
    && FreshAt(states[k], states[k + 1])
    && OwnTermCommit(states[k], events[k])
    && VerifiedCommit(states[k], events[k])
  }

  ghost predicate CleanRun(states: seq<Group>, events: seq<Event>) {
    && VotedRun(states, events)
    && forall k: nat {:trigger CleanAt(states, events, k)} :: k < |events| ==> CleanAt(states, events, k)
  }

  //
  // The invariant
  //

  /** The commitment reaches at least this index, and was made by this term. */
  predicate Backs(r: Record, c: Commitment, term: nat, index: nat) {
    c in r.commits && c.term in r.h.led && c.term <= term && index <= c.index
  }

  ghost predicate Backed(r: Record, term: nat, index: nat) {
    index == 0 || exists c :: Backs(r, c, term, index)
  }

  predicate MachineIs(machine: seq<Applied>, led: seq<Entry>) {
    && |machine| <= |led|
    && forall k :: 0 <= k < |machine| ==> machine[k] == Applied(k + 1, led[k].value)
  }

  ghost predicate SafeBy(n: Node, r: Record, c: Commitment) {
    Backs(r, c, n.term, n.quickCommit) && MachineIs(n.machine, r.h.led[c.term])
  }

  /** What a server has handed to its machine was committed by a leader. */
  ghost predicate SafeNode(n: Node, r: Record) {
    && |n.machine| == n.commitIndex <= n.quickCommit
    && (n.quickCommit == 0 || exists c :: SafeBy(n, r, c))
  }

  ghost predicate SafePacket(p: Packet, r: Record) {
    p.AskAppend? ==> Backed(r, p.append.term, p.append.commitIndex)
  }

  ghost predicate Safe(g: Group) {
    && g.record.h.victories.Keys <= g.record.freshTerms
    && (forall i: nat {:trigger SafeNode(g.nodes[i], g.record)} :: i < |g.nodes| ==> SafeNode(g.nodes[i], g.record))
    && (forall p {:trigger SafePacket(p, g.record)} :: p in g.net ==> SafePacket(p, g.record))
  }

  //
  // Commitments agree
  //

  ghost predicate VotedGroup(g: Group) {
    Inv(g) && !g.record.unvoted
  }

  /** The leader of a later term has what was committed. */
  lemma LedAgrees(g: Group, c: Commitment, u: nat)
    requires VotedGroup(g) && c in g.record.commits && c.term <= u && u in g.record.h.led
    ensures c.term in g.record.h.led && c.index <= |g.record.h.led[c.term]|
    ensures c.index <= |g.record.h.led[u]|
    ensures g.record.h.led[u][..c.index] == g.record.h.led[c.term][..c.index]
  {
    assert CommitmentOk(g.record.h, c, |g.nodes|);
    if c.term < u {
      CommittedIn(g, c.term, c.index, u);
      assert LedOk(g.record.h, u);
    }
  }

  lemma MachineMoves(g: Group, c: Commitment, u: nat, machine: seq<Applied>)
    requires VotedGroup(g) && c in g.record.commits && c.term <= u && u in g.record.h.led
    requires |machine| <= c.index
    ensures c.term in g.record.h.led
    ensures MachineIs(machine, g.record.h.led[c.term]) <==> MachineIs(machine, g.record.h.led[u])
  {
    LedAgrees(g, c, u);
    var a, b := g.record.h.led[c.term], g.record.h.led[u];
    forall k | 0 <= k < |machine| ensures a[k] == b[k] {
      assert a[..c.index][k] == b[..c.index][k];
    }
  }

  lemma MachineBetween(g: Group, c: Commitment, d: Commitment, machine: seq<Applied>)
    requires VotedGroup(g) && c in g.record.commits && d in g.record.commits
    requires c.term in g.record.h.led && d.term in g.record.h.led
    requires |machine| <= c.index && |machine| <= d.index && MachineIs(machine, g.record.h.led[c.term])
    ensures MachineIs(machine, g.record.h.led[d.term])
  {
    if c.term <= d.term {
      MachineMoves(g, c, d.term, machine);
    } else {
      MachineMoves(g, d, c.term, machine);
    }
  }

  /** What is handed over from a log that begins like a leader's is what the leader has. */
  lemma MachineGrows(n: Node, r: Node, led: seq<Entry>, reach: nat)
    requires Hands(n, r) && |n.machine| == n.commitIndex && r.log.start == 1
    requires MachineIs(n.machine, led) && |r.machine| <= reach <= |led|
    requires |r.machine| == |n.machine| || led[..reach] <= r.log.entries
    ensures MachineIs(r.machine, led)
  {
    forall k | 0 <= k < |r.machine| ensures r.machine[k] == Applied(k + 1, led[k].value) {
      if k < |n.machine| {
        assert r.machine[k] == n.machine[k];
      } else {
        assert IsEntryAt(r.machine[k], r.log);
        assert led[..reach][k] == r.log.entries[k];
      }
    }
  }

  //
  // What a step leaves alone
  //

  lemma BacksLater(r: Record, r': Record, c: Commitment, term: nat, term': nat, index: nat)
    requires Backs(r, c, term, index) && term <= term'
    requires r.commits <= r'.commits && Grows(r.h, r'.h)
    ensures Backs(r', c, term', index)
  {}

  /** A server that commits nothing stays safe. */
  lemma QuietStaysSafe(n: Node, n': Node, r: Record, r': Record)
    requires SafeNode(n, r) && Uncommitted(n, n') && n.term <= n'.term
    requires r.commits <= r'.commits && Grows(r.h, r'.h) && LedGrows(r.h, r'.h)
    ensures SafeNode(n', r')
  {
    if n.quickCommit > 0 {
      var c :| SafeBy(n, r, c);
      BacksLater(r, r', c, n.term, n'.term, n.quickCommit);
      assert r.h.led[c.term] <= r'.h.led[c.term];
      assert SafeBy(n', r', c);
    }
  }

  lemma PacketStaysSafe(p: Packet, r: Record, r': Record)
    requires SafePacket(p, r) && r.commits <= r'.commits && Grows(r.h, r'.h)
    ensures SafePacket(p, r')
  {
    if p.AskAppend? && p.append.commitIndex > 0 {
      var c :| Backs(r, c, p.append.term, p.append.commitIndex);
      BacksLater(r, r', c, p.append.term, p.append.term, p.append.commitIndex);
    }
  }

  /** The group after a step, from what concerns the stepping server and what it sent. */
  lemma AssembleSafe(g: Group, g': Group, i: nat)
    requires Safe(g) && Inv(g) && Advances(g, g') && !g'.record.unvoted && i < |g.nodes|
    requires forall j :: 0 <= j < |g.nodes| && j != i ==> g'.nodes[j] == g.nodes[j]
    requires g.record.commits <= g'.record.commits
    requires g'.record.h.victories.Keys <= g'.record.freshTerms
    requires SafeNode(g'.nodes[i], g'.record)
    requires forall p {:trigger SafePacket(p, g'.record)} :: p in g'.net && p !in g.net ==> SafePacket(p, g'.record)
    ensures Safe(g')
  {
    forall j: nat | j < |g'.nodes| ensures SafeNode(g'.nodes[j], g'.record) {
      if j != i {
        assert SafeNode(g.nodes[j], g.record);
        QuietStaysSafe(g.nodes[j], g'.nodes[j], g.record, g'.record);
      }
    }
    forall p | p in g'.net ensures SafePacket(p, g'.record) {
      if p in g.net {
        assert SafePacket(p, g.record);
        PacketStaysSafe(p, g.record, g'.record);
      }
    }
  }

  lemma TenuresStayFresh(g: Group, e: Event, g': Group)
    requires Step(g, e, g') && g.record.h.victories.Keys <= g.record.freshTerms && FreshAt(g, g')
    ensures g'.record.h.victories.Keys <= g'.record.freshTerms
  {
    StepObserved(g, e, g');
    var i := Actor(e);
    var r := Observe(g.record, g.nodes[i], g'.nodes[i], |g.nodes|);
    assert ObserveHistory(g.record.h, g.nodes[i], g'.nodes[i], |g.nodes|).victories
      == ObserveWin(ObserveBid(g.record.h, g.nodes[i], g'.nodes[i]), g.nodes[i], g'.nodes[i], |g.nodes|).victories;
    assert BecomesLeader(g.nodes[i], g'.nodes[i]) && VotePhase(g.nodes[i]) ==> Elected(g, g', i);
  }

  //
  // Steps that commit nothing
  //

  lemma QuietTimeout(n: Node)
    requires n.Retains() && n.role != Leader && n.peers != []
    ensures Uncommitted(n, RequestElection(n).node)
  {}

  lemma QuietVoteResponse(n: Node, from: Id, response: VoteResponse)
    requires n.Retains() && Fixed(n) && n.peers != []
    ensures Uncommitted(n, HandlePeerVoteResponse(n, from, response).node)
  {
    if CheckTerm(n, response.term).1 {
      QuietTally(n, response);
    }
  }

  lemma QuietTally(n: Node, response: VoteResponse)
    requires n.Retains() && Fixed(n) && n.peers != []
    ensures Uncommitted(n, HandleVoteResponse(n, response).node)
  {
    var n1 := Tally(n, response);
    assert Fixed(n1);
    QuietCandidate(n1);
    BecomeLeaderAmongOthers(n1);
  }

  lemma QuietCandidate(n: Node)
    requires n.Retains() && n.peers != []
    ensures Uncommitted(n, BecomeCandidate(n).node)
  {}

  lemma QuietPublish(n: Node, request: PublishRequest)
    requires n.Retains() && n.peers != []
    ensures Uncommitted(n, HandlePublish(n, request).0)
  {
    ReceivedKeeps(n.(sessions := Sessions.Ensure(n.sessions, request.clientId)),
                  request.clientId, request.messages);
  }

  lemma QuietStep(g: Group, e: Event, g': Group)
    requires Inv(g) && Step(g, e, g') && |g.nodes| >= 2
    requires !e.ReceiveAppendRequest? && !e.ReceiveAppendResponse?
    ensures Actor(e) < |g.nodes| == |g'.nodes|
    ensures Uncommitted(g.nodes[Actor(e)], g'.nodes[Actor(e)])
    ensures g'.record.commits == g.record.commits
  {
    var i := Actor(e);
    assert NodeOk(g, i);
    var n := g.nodes[i];
    match e
    case Timeout(_) =>
      if n.role != Leader { QuietTimeout(n); }
    case ReceiveVoteRequest(p, open) => VoteRequestUncommitted(n, p.vote, open);
    case ReceiveVoteResponse(p) => QuietVoteResponse(n, p.ballot.serverId, p.ballot);
    case SendAppend(_, peer, gap, batch) =>
    case ReceivePublish(_, request) => QuietPublish(n, request);
    case GiveUp(_, lock) =>
    case LockCommits(_, locked) =>
  }

  /** Of the requests that a step sends, those for entries carry the leader's quick index. */
  lemma SentInStep(g: Group, e: Event, g': Group, p: Packet)
    requires Step(g, e, g') && p in g'.net && p !in g.net && p.AskAppend?
    ensures Actor(e) < |g.nodes| && g.nodes[Actor(e)].quickCommit == p.append.commitIndex
    ensures g.nodes[Actor(e)].term == p.append.term && e.SendAppend?
  {}

  //
  // A leader commits
  //

  lemma QuietResponse(n: Node, response: AppendResponse)
    requires n.Retains() && (response.accepted ==> response.nextIndex >= 1)
    requires CommitOf(n, response.serverId, response).None?
    ensures Uncommitted(n, HandlePeerAppendResponse(n, response.serverId, response).0)
  {
    if PeerIndex(n.peers, response.serverId) < |n.peers| {
      AppendResponseCases(n, response);
    }
  }

  /** What a leader's commit does: it hands over entries of its log up to its new quick index. */
  predicate CommitsTo(n: Node, n': Node, index: nat) {
    && Hands(n, n') && n'.Retains() && n'.log == n.log && n'.quickCommit == Greatest(n.quickCommit, index)
    && n'.term == n.term && n'.role == n.role
  }

  lemma CommitCommitsTo(n: Node, n1: Node, index: nat)
    requires n.Retains() && n1 == n.(peers := n1.peers)
    ensures CommitsTo(n, Commit(n1, index), index)
  {
    CommitHands(n1, index);
    CommitKeepsTerm(n1, index);
    UncommittedHands(n, n1, Commit(n1, index));
  }

  lemma ResponseCommits(n: Node, response: AppendResponse, index: nat)
    requires n.Retains() && CommitOf(n, response.serverId, response) == Some(index)
    ensures CommitsTo(n, HandlePeerAppendResponse(n, response.serverId, response).0, index)
    ensures n.role == Leader
  {
    AppendResponseCases(n, response);
    CommitCommitsTo(n, MatchedPeer(n, response), index);
  }

  /** What the machine of a leader was handed is in its own log. */
  lemma LeaderMachine(g: Group, i: nat)
    requires VotedGroup(g) && Safe(g) && i < |g.nodes| && g.nodes[i].role == Leader
    ensures MachineIs(g.nodes[i].machine, g.nodes[i].log.entries)
  {
    var n := g.nodes[i];
    assert SafeNode(n, g.record) && LeaderOk(n, g.record);
    if n.quickCommit > 0 {
      var c :| SafeBy(n, g.record, c);
      MachineMoves(g, c, n.term, n.machine);
    }
  }

  lemma LeaderStaysSafe(g: Group, g': Group, i: nat, index: nat)
    requires VotedGroup(g) && VotedGroup(g') && Safe(g) && Advances(g, g') && i < |g.nodes|
    requires g.nodes[i].role == Leader && CommitsTo(g.nodes[i], g'.nodes[i], index)
    requires g.record.commits <= g'.record.commits
    requires index > g.nodes[i].quickCommit ==>
      Commitment(g.nodes[i].term, index) in g'.record.commits
    ensures SafeNode(g'.nodes[i], g'.record)
  {
    var n, n' := g.nodes[i], g'.nodes[i];
    assert SafeNode(n, g.record) && LeaderOk(n, g.record) && LeaderOk(n', g'.record);
    assert NodeOk(g', i);
    LeaderMachine(g, i);
    LeaderGrows(n, n', index);
    var led' := g'.record.h.led[n.term];
    assert led' == n'.log.entries && MachineIs(n'.machine, led');
    if index > n.quickCommit {
      var c := Commitment(n.term, index);
      assert CommitmentOk(g'.record.h, c, |g'.nodes|);
      assert SafeBy(n', g'.record, c);
    } else if n.quickCommit > 0 {
      var c :| SafeBy(n, g.record, c);
      BacksLater(g.record, g'.record, c, n.term, n'.term, n.quickCommit);
      MachineMoves(g', c, n.term, n'.machine);
      assert SafeBy(n', g'.record, c);
    }
  }

  lemma LeaderGrows(n: Node, n': Node, index: nat)
    requires CommitsTo(n, n', index) && |n.machine| == n.commitIndex && n.log.start == 1
    requires MachineIs(n.machine, n.log.entries)
    ensures MachineIs(n'.machine, n'.log.entries) && |n'.machine| == n'.commitIndex <= n'.quickCommit
  {
    if |n'.machine| > |n.machine| {
      assert IsEntryAt(n'.machine[|n'.machine| - 1], n'.log);
    }
    MachineGrows(n, n', n.log.entries, |n'.machine|);
  }

  lemma ResponseStepSafe(g: Group, p: Packet, g': Group)
    requires VotedGroup(g) && VotedGroup(g') && Safe(g) && Advances(g, g')
    requires Step(g, ReceiveAppendResponse(p), g') && OwnTermCommit(g, ReceiveAppendResponse(p))
    requires g.record.commits <= g'.record.commits && g'.record.h.victories.Keys <= g'.record.freshTerms
    ensures SafeNode(g'.nodes[p.to], g'.record)
  {
    var n := g.nodes[p.to];
    assert SafeNode(n, g.record) && NodeOk(g, p.to);
    var index := CommitOf(n, p.answer.serverId, p.answer);
    if index.None? {
      QuietResponse(n, p.answer);
      QuietStaysSafe(n, g'.nodes[p.to], g.record, g'.record);
    } else {
      ResponseCommits(n, p.answer, index.value);
      if index.value > n.quickCommit {
        LeaderIsFresh(g, g', p.to);
        CommitObserved(g, p, g', index.value);
      }
      LeaderStaysSafe(g, g', p.to, index.value);
    }
  }

  lemma LeaderIsFresh(g: Group, g': Group, i: nat)
    requires VotedGroup(g) && VotedGroup(g') && Advances(g, g') && i < |g.nodes| && g.nodes[i].role == Leader
    requires g'.record.h.victories.Keys <= g'.record.freshTerms
    ensures g.nodes[i].id == i && g.nodes[i].log.start == 1
    ensures g.nodes[i].term in g'.record.freshTerms && g'.record.h.LedBy(g.nodes[i].term, g.nodes[i].id)
  {
    assert NodeOk(g, i) && LeaderOk(g.nodes[i], g.record);
  }

  //
  // A follower commits
  //

  /** What accepting a request does to what is committed, if that was all verified. */
  predicate TakesTo(n: Node, n': Node, request: AppendRequest) {
    && Hands(n, n') && n'.Retains() && n'.quickCommit == Greatest(n.quickCommit, request.commitIndex)
    && n'.term == request.term >= n.term
    && (n'.commitIndex > n.commitIndex ==> n'.commitIndex <= Verified(request))
  }

  lemma RequestCommits(n: Node, request: AppendRequest)
    requires Accepting(n, request) && VerifiedOnly(n, request)
    ensures TakesTo(n, HandleAppendRequest(n, request).0, request)
  {
    AppendRequestHands(n, request);
    CommitsVerifiedOnly(n, request);
    AcknowledgedReplicates(n, request);
    var n1 := Acknowledge(n, request);
    AcknowledgedTerm(n, request);
    AcceptedReplicates(n1, request);
    ReplicateAccepts(n1, request);
    CommitHands(TakeEntries(n1, request), request.commitIndex);
    CommitKeepsTerm(TakeEntries(n1, request), request.commitIndex);
  }

  lemma AcknowledgedTerm(n: Node, request: AppendRequest)
    ensures Acknowledge(n, request).term == if request.term > n.term then request.term else n.term
  {}

  lemma FollowerStaysSafe(g: Group, g': Group, p: Packet, j: nat)
    requires VotedGroup(g) && VotedGroup(g') && Safe(g) && Advances(g, g') && j < |g.nodes|
    requires p in g.net && p.AskAppend? && TakesTo(g.nodes[j], g'.nodes[j], p.append)
    requires g.record.commits <= g'.record.commits
    requires Ack(p.append.term, j, Verified(p.append)) in g'.record.h.acks
    ensures SafeNode(g'.nodes[j], g'.record)
  {
    var n, n' := g.nodes[j], g'.nodes[j];
    assert SafeNode(n, g.record) && SafePacket(p, g.record) && NodeOk(g', j);
    AckedHas(g', Ack(p.append.term, j, Verified(p.append)));
    if n'.quickCommit > 0 {
      var c := FollowerCommitment(g, g', p, j);
      FollowerMachine(g, g', p, j, c);
      assert SafeBy(n', g'.record, c);
    }
  }

  /** The commitment behind the follower's quick index: its own before, or the leader's. */
  lemma FollowerCommitment(g: Group, g': Group, p: Packet, j: nat) returns (c: Commitment)
    requires Advances(g, g') && j < |g.nodes| && p.AskAppend? && g.record.commits <= g'.record.commits
    requires SafeNode(g.nodes[j], g.record) && SafePacket(p, g.record)
    requires TakesTo(g.nodes[j], g'.nodes[j], p.append) && g'.nodes[j].quickCommit > 0
    ensures Backs(g'.record, c, p.append.term, g'.nodes[j].quickCommit)
  {
    var n := g.nodes[j];
    if p.append.commitIndex > n.quickCommit {
      c :| Backs(g.record, c, p.append.term, p.append.commitIndex);
      BacksLater(g.record, g'.record, c, p.append.term, p.append.term, p.append.commitIndex);
    } else {
      c :| SafeBy(n, g.record, c);
      BacksLater(g.record, g'.record, c, n.term, p.append.term, n.quickCommit);
    }
  }

  /** What was handed over before is what this commitment says. */
  lemma OldMachine(g: Group, g': Group, j: nat, c: Commitment)
    requires VotedGroup(g) && VotedGroup(g') && Advances(g, g') && j < |g.nodes|
    requires SafeNode(g.nodes[j], g.record) && g.record.commits <= g'.record.commits
    requires c in g'.record.commits && c.term in g'.record.h.led && |g.nodes[j].machine| <= c.index
    ensures MachineIs(g.nodes[j].machine, g'.record.h.led[c.term])
  {
    var n := g.nodes[j];
    if n.machine != [] {
      var d :| SafeBy(n, g.record, d);
      assert g.record.h.led[d.term] <= g'.record.h.led[d.term];
      MachineBetween(g', d, c, n.machine);
    }
  }

  lemma FollowerMachine(g: Group, g': Group, p: Packet, j: nat, c: Commitment)
    requires VotedGroup(g) && VotedGroup(g') && Advances(g, g') && j < |g.nodes|
    requires SafeNode(g.nodes[j], g.record) && g.record.commits <= g'.record.commits
    requires p.AskAppend? && TakesTo(g.nodes[j], g'.nodes[j], p.append) && g'.nodes[j].log.start == 1
    requires Backs(g'.record, c, p.append.term, g'.nodes[j].quickCommit)
    requires var t := p.append.term;
      && t in g'.record.h.led && Verified(p.append) <= |g'.record.h.led[t]|
      && g'.record.h.led[t][..Verified(p.append)] <= g'.nodes[j].log.entries
    ensures |g'.nodes[j].machine| == g'.nodes[j].commitIndex <= g'.nodes[j].quickCommit
    ensures MachineIs(g'.nodes[j].machine, g'.record.h.led[c.term])
  {
    var n, n', t := g.nodes[j], g'.nodes[j], p.append.term;
    OldMachine(g, g', j, c);
    MachineMoves(g', c, t, n.machine);
    var led := g'.record.h.led[t];
    if |n'.machine| > |n.machine| {
      assert led[..|n'.machine|] == led[..Verified(p.append)][..|n'.machine|];
      PrefixTrans(led[..|n'.machine|], led[..Verified(p.append)], n'.log.entries);
    }
    MachineGrows(n, n', led, |n'.machine|);
    MachineMoves(g', c, t, n'.machine);
  }

  lemma RequestStepSafe(g: Group, p: Packet, g': Group)
    requires VotedGroup(g) && VotedGroup(g') && Safe(g) && Advances(g, g')
    requires Step(g, ReceiveAppendRequest(p), g') && VerifiedCommit(g, ReceiveAppendRequest(p))
    requires g.record.commits <= g'.record.commits
    ensures SafeNode(g'.nodes[p.to], g'.record)
  {
    RequestHandled(g, p, g');
    HandledStaysSafe(g, p, g');
  }

  /** The request was handled, and was acknowledged if it was accepted. */
  ghost predicate Handled(g: Group, p: Packet, g': Group) {
    && p in g.net && p.AskAppend? && p.to < |g.nodes| == |g'.nodes|
    && g.nodes[p.to].Retains() && AppendRequestAllowed(g.nodes[p.to], p.append)
    && p.append.serverId in g.nodes[p.to].servers
    && var (n', response) := HandleAppendRequest(g.nodes[p.to], p.append);
       && g'.nodes[p.to] == n'
       && if response.accepted then Ack(p.append.term, p.to, Verified(p.append)) in g'.record.h.acks
          else Uncommitted(g.nodes[p.to], n') && g.nodes[p.to].term <= n'.term
  }

  lemma HandledStaysSafe(g: Group, p: Packet, g': Group)
    requires VotedGroup(g) && VotedGroup(g') && Safe(g) && Advances(g, g')
    requires Handled(g, p, g') && VerifiedCommit(g, ReceiveAppendRequest(p))
    requires g.record.commits <= g'.record.commits
    ensures SafeNode(g'.nodes[p.to], g'.record)
  {
    var n := g.nodes[p.to];
    assert SafeNode(n, g.record);
    if HandleAppendRequest(n, p.append).1.accepted {
      AcceptedStaysSafe(g, g', p);
    } else {
      QuietStaysSafe(n, g'.nodes[p.to], g.record, g'.record);
    }
  }

  lemma AcceptedStaysSafe(g: Group, g': Group, p: Packet)
    requires VotedGroup(g) && VotedGroup(g') && Safe(g) && Advances(g, g')
    requires p in g.net && p.AskAppend? && p.to < |g.nodes| && g.record.commits <= g'.record.commits
    requires Accepting(g.nodes[p.to], p.append) && VerifiedOnly(g.nodes[p.to], p.append)
    requires g'.nodes[p.to] == HandleAppendRequest(g.nodes[p.to], p.append).0
    requires Ack(p.append.term, p.to, Verified(p.append)) in g'.record.h.acks
    ensures SafeNode(g'.nodes[p.to], g'.record)
  {
    RequestCommits(g.nodes[p.to], p.append);
    FollowerStaysSafe(g, g', p, p.to);
  }

  lemma RequestHandled(g: Group, p: Packet, g': Group)
    requires VotedGroup(g) && Step(g, ReceiveAppendRequest(p), g')
    ensures Handled(g, p, g')
  {
    var n := g.nodes[p.to];
    assert NodeOk(g, p.to) && PacketOk(g, p);
    KnownServer(|g.nodes|, p.append.serverId);
    AppendAlwaysAllowed(g, p);
    AppendEffect(n, p.append);
    if HandleAppendRequest(n, p.append).1.accepted {
      RequestAcks(g, p, g');
    }
  }

  lemma RequestAcks(g: Group, p: Packet, g': Group)
    requires Step(g, ReceiveAppendRequest(p), g') && AppendRequestAllowed(g.nodes[p.to], p.append)
    requires NodeOk(g, p.to)
    requires Accepted(g.nodes[p.to], p.append, g'.nodes[p.to], HandleAppendRequest(g.nodes[p.to], p.append).1)
    ensures g'.nodes[p.to] == HandleAppendRequest(g.nodes[p.to], p.append).0
    ensures Ack(p.append.term, p.to, Verified(p.append)) in g'.record.h.acks
  {
    var (n', response) := HandleAppendRequest(g.nodes[p.to], p.append);
    var u := Update(g, p.to, n', {AnswerAppend(p.append.serverId, response)});
    assert g' == u.(record := ObserveAck(u.record, n', response));
  }

  //
  // Every step, every run
  //

  lemma StepSafe(g: Group, e: Event, g': Group)
    requires VotedGroup(g) && VotedGroup(g') && Safe(g) && Advances(g, g') && |g.nodes| >= 2
    requires Step(g, e, g') && OwnTermCommit(g, e) && VerifiedCommit(g, e)
    requires g.record.commits <= g'.record.commits && g'.record.h.victories.Keys <= g'.record.freshTerms
    ensures Actor(e) < |g.nodes| && SafeNode(g'.nodes[Actor(e)], g'.record)
  {
    if e.ReceiveAppendRequest? {
      RequestStepSafe(g, e.p, g');
    } else if e.ReceiveAppendResponse? {
      ResponseStepSafe(g, e.p, g');
    } else {
      QuietStep(g, e, g');
      var i := Actor(e);
      assert SafeNode(g.nodes[i], g.record);
      QuietStaysSafe(g.nodes[i], g'.nodes[i], g.record, g'.record);
    }
  }

  /** A leader sends its own quick index, which a commitment backs. */
  lemma SentSafe(g: Group, e: Event, g': Group, p: Packet)
    requires Safe(g) && Advances(g, g') && Step(g, e, g') && p in g'.net && p !in g.net
    requires g.record.commits <= g'.record.commits
    ensures SafePacket(p, g'.record)
  {
    if p.AskAppend? && p.append.commitIndex > 0 {
      SentInStep(g, e, g', p);
      var n := g.nodes[Actor(e)];
      assert SafeNode(n, g.record);
      var c :| SafeBy(n, g.record, c);
      BacksLater(g.record, g'.record, c, n.term, n.term, n.quickCommit);
    }
  }

  lemma StepKeepsSafe(g: Group, e: Event, g': Group)
    requires VotedGroup(g) && VotedGroup(g') && Safe(g) && Advances(g, g') && |g.nodes| >= 2
    requires Step(g, e, g') && FreshAt(g, g') && OwnTermCommit(g, e) && VerifiedCommit(g, e)
    ensures Safe(g')
  {
    CommitsStay(g, e, g');
    TenuresStayFresh(g, e, g');
    StepObserved(g, e, g');
    StepSafe(g, e, g');
    forall p | p in g'.net && p !in g.net ensures SafePacket(p, g'.record) {
      SentSafe(g, e, g', p);
    }
    AssembleSafe(g, g', Actor(e));
  }

  lemma StartsSafe(size: nat)
    ensures Safe(NewGroup(size))
  {
    var g := NewGroup(size);
    forall i: nat | i < |g.nodes| ensures SafeNode(g.nodes[i], g.record) {
      assert g.nodes[i] == Started(i, Ids(size));
    }
  }

  lemma RunVoted(states: seq<Group>, events: seq<Event>, k: nat)
    requires VotedRun(states, events) && k < |states|
    ensures VotedGroup(states[k]) && |states[k].nodes| == |states[0].nodes|
  {
    RunInv(states, events, k);
    VotedRunNeverUnvoted(states, events, k);
  }

  lemma RunStepSafe(states: seq<Group>, events: seq<Event>, k: nat)
    requires CleanRun(states, events) && k < |events| && |states[0].nodes| >= 2
    requires Safe(states[k])
    ensures Safe(states[k + 1])
  {
    RunVoted(states, events, k);
    RunVoted(states, events, k + 1);
    RunAdvances(states, events, k);
    assert StepAt(states, events, k) && CleanAt(states, events, k);
    StepKeepsSafe(states[k], events[k], states[k + 1]);
  }

  lemma {:induction false} RunStaysSafe(states: seq<Group>, events: seq<Event>, k: nat)
    requires CleanRun(states, events) && k < |states| && |states[0].nodes| >= 2
    ensures Safe(states[k])
  {
    if k > 0 {
      RunStaysSafe(states, events, k - 1);
      RunStepSafe(states, events, k - 1);
    } else {
      StartsSafe(|states[0].nodes|);
    }
  }

  /** In one group, two state machines agree as far as both go. */
  lemma MachinesAgree(g: Group, i: nat, j: nat, k: nat)
    requires VotedGroup(g) && Safe(g) && i < |g.nodes| && j < |g.nodes|
    requires k < |g.nodes[i].machine| && k < |g.nodes[j].machine|
    ensures g.nodes[i].machine[k] == g.nodes[j].machine[k]
  {
    var n, m := g.nodes[i], g.nodes[j];
    assert SafeNode(n, g.record) && SafeNode(m, g.record);
    var c :| SafeBy(n, g.record, c);
    var d :| SafeBy(m, g.record, d);
    var u := if c.term <= d.term then d.term else c.term;
    MachineMoves(g, c, u, n.machine);
    MachineMoves(g, d, u, m.machine);
  }

  /**
   State machine safety: in such a run, what any two servers have handed to their state machines, each
   at any moment, is the same entry at every index that both have handed over.
   */
  lemma StateMachineSafety(
    states: seq<Group>, events: seq<Event>, a: nat, b: nat, i: nat, j: nat, k: nat)
    requires CleanRun(states, events) && a < |states| && b < |states|
    requires i < |states[a].nodes| && j < |states[b].nodes|
    requires k < |states[a].nodes[i].machine| && k < |states[b].nodes[j].machine|
    ensures states[a].nodes[i].machine[k] == states[b].nodes[j].machine[k]
    ensures states[a].nodes[i].machine[k].index == k + 1
  {
    AppliedInOrder(states, events, a, i);
    RunInv(states, events, a);
    RunInv(states, events, b);
    var c := if a <= b then b else a;
    AppliedForGood(states, events, a, c, i);
    AppliedForGood(states, events, b, c, j);
    if |states[0].nodes| >= 2 {
      RunStaysSafe(states, events, c);
      RunVoted(states, events, c);
      MachinesAgree(states[c], i, j, k);
    }
  }
}
