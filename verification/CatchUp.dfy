/**
 How a follower whose log differs from its leader's catches up, when each of the leader's requests is
 answered before the next.
 */
module CatchUp {
  import opened Types
  import opened Log
  import opened Handlers
  import opened NodeFacts
  import Group
  import Safety

  /** Logs with an entry of one term at one index are equal up to it. */
  predicate Matching(a: seq<Entry>, b: seq<Entry>) {
    forall k: nat {:trigger MatchingAt(a, b, k)} :: k < |a| && k < |b| ==> MatchingAt(a, b, k)
  }

  predicate MatchingAt(a: seq<Entry>, b: seq<Entry>, k: nat)
    requires k < |a| && k < |b|
  {
    a[k].term == b[k].term ==> a[..k + 1] == b[..k + 1]
  }

  /** In a run whose leaders were voted for, any two servers' logs match at any time. */
  lemma LogsMatch(states: seq<Group.Group>, events: seq<Group.Event>, k: nat, i: nat, j: nat)
    requires Safety.VotedRun(states, events) && k < |states|
    requires i < |states[k].nodes| && j < |states[k].nodes|
    ensures Matching(states[k].nodes[i].log.entries, states[k].nodes[j].log.entries)
  {
    var a, b := states[k].nodes[i].log, states[k].nodes[j].log;
    Safety.LogsStartAtOne(states, events, k, i);
    Safety.LogsStartAtOne(states, events, k, j);
    forall m: nat | m < |a.entries| && m < |b.entries| ensures MatchingAt(a.entries, b.entries, m) {
      if a.entries[m].term == b.entries[m].term {
        Safety.LogMatching(states, events, k, k, i, j, m + 1);
        assert a.Slice(1, m + 2) == a.entries[..m + 1] && b.Slice(1, m + 2) == b.entries[..m + 1];
      }
    }
  }

  /** A leader and the follower that is its peer `i`, of one fixed configuration. */
  predicate Linked(l: Node, f: Node, i: nat, gap: nat, batch: nat) {
    && l.Retains() && f.Retains() && l.log.start == f.log.start == 1
    && Fixed(l) && Fixed(f) && l.servers == f.servers && l.id in f.servers
    && l.role == Leader && f.term <= l.term && (f.term == l.term ==> f.role != Leader)
    && !f.transferring && l.log.End() <= gap && batch >= 1
    && i < |l.peers| && l.peers[i].id == f.id && PeerIndex(l.peers, f.id) == i
    && 1 <= l.peers[i].nextIndex <= l.log.End() && l.peers[i].rewindStep >= 1
    && Matching(l.log.entries, f.log.entries)
  }

  function RequestTo(l: Node, i: nat, gap: nat, batch: nat): (r: AppendRequest)
    requires l.Retains() && i < |l.peers| && CanCreateAppendRequest(l, l.peers[i])
  {
    CreateAppendRequest(l, l.peers[i], gap, batch)
  }

  /** The leader sends its request, the follower answers, and the leader takes the answer in. */
  predicate IsRound(l: Node, f: Node, l': Node, f': Node, i: nat, gap: nat, batch: nat)
    requires Linked(l, f, i, gap, batch)
  {
    RoundAllowed(l, f, i, gap, batch);
    var request := RequestTo(l, i, gap, batch);
    var (n, response) := HandleAppendRequest(f, request);
    && f' == n
    && (response.accepted ==> response.nextIndex >= 1)
    && l' == HandlePeerAppendResponse(l, f.id, response).0
  }

  lemma RoundAllowed(l: Node, f: Node, i: nat, gap: nat, batch: nat)
    requires Linked(l, f, i, gap, batch)
    ensures var request := RequestTo(l, i, gap, batch);
      && AppendRequestAllowed(f, request) && request.transfer.None?
      && request.serverId == l.id && request.term == l.term
      && request.lastLogIndex == l.peers[i].nextIndex - 1
      && SameServers(f.servers, request.entries)
  {}

  /** The follower's log agrees with the leader's just below the peer's next index. */
  predicate Agrees(l: Node, f: Node, i: nat)
    requires i < |l.peers| && l.log.start == f.log.start == 1
    requires 1 <= l.peers[i].nextIndex <= l.log.End()
  {
    var last := l.peers[i].nextIndex - 1;
    last == 0 || (last < f.log.End() && l.log.At(last).term == f.log.At(last).term)
  }

  //
  // One round
  //

  /** What a rejected round does. */
  predicate StepsBack(l: Node, f: Node, l': Node, f': Node, i: nat)
    requires i < |l.peers|
  {
    && l'.log == l.log && f'.log == f.log
    && |l'.peers| == |l.peers|
    && l'.peers[i] == RewoundTo(l.peers[i], f.log.End())
  }

  /** What an accepted round does. */
  predicate StepsOn(l: Node, l': Node, f': Node, i: nat, batch: nat)
    requires i < |l.peers|
  {
    && l'.log == l.log
    && |l'.peers| == |l.peers|
    && l'.peers[i].nextIndex == Least(l.peers[i].nextIndex + batch, l.log.End()) >= 1
    && l'.peers[i].matched == l'.peers[i].nextIndex - 1
    && l'.peers[i].nextIndex - 1 <= |l.log.entries|
    && l.log.entries[..l'.peers[i].nextIndex - 1] <= f'.log.entries
  }

  /** The request holds the piece of the leader's log that the peer is to get next. */
  predicate PieceFor(l: Node, i: nat, request: AppendRequest, batch: nat) {
    && i < |l.peers| && l.log.start == 1
    && request.serverId == l.id && request.term == l.term && request.transfer.None?
    && request.lastLogIndex == l.peers[i].nextIndex - 1
    && request.lastLogIndex + |request.entries| <= |l.log.entries|
    && request.lastLogIndex + |request.entries| + 1 == Least(l.peers[i].nextIndex + batch, l.log.End())
    && request.entries == l.log.entries[request.lastLogIndex..request.lastLogIndex + |request.entries|]
    && (request.lastLogIndex > 0 ==> request.lastLogTerm == l.log.entries[request.lastLogIndex - 1].term)
  }

  lemma RequestIsPiece(l: Node, f: Node, i: nat, gap: nat, batch: nat)
    requires Linked(l, f, i, gap, batch)
    ensures PieceFor(l, i, RequestTo(l, i, gap, batch), batch)
  {}

  /** What a round comes to, for the follower and for the leader. */
  predicate Answered(l: Node, f: Node, l': Node, f': Node, i: nat, batch: nat,
                     request: AppendRequest, response: AppendResponse)
    requires f.log.start >= 1
  {
    && PieceFor(l, i, request, batch)
    && (if response.accepted then Accepted(f, request, f', response) else Rejected(f, request, f', response))
    && (response.accepted <==> Fits(f.log, request))
    && f'.term == l.term && f'.role == Follower && response.term == l.term
    && (if response.accepted then response.nextIndex >= 1 && Advanced(l, l', i, response)
        else l' == l.(peers := l.peers[i := RewoundTo(l.peers[i], f.log.End())]))
  }

  /** The leader once a peer has accepted: only that peer and what commits change differ. */
  predicate Advanced(l: Node, l': Node, i: nat, response: AppendResponse)
    requires i < |l.peers| && response.nextIndex >= 1
  {
    && l' == l.(peers := l.peers[i := l.peers[i].(rewindStep := 1, nextIndex := response.nextIndex,
                                                  matched := response.nextIndex - 1)],
                quickCommit := l'.quickCommit, commitIndex := l'.commitIndex, machine := l'.machine,
                sessions := l'.sessions, configurationChanging := l'.configurationChanging)
    && l'.Retains()
  }

  lemma RoundIs(l: Node, f: Node, l': Node, f': Node, i: nat, gap: nat, batch: nat)
    returns (request: AppendRequest, response: AppendResponse)
    requires Linked(l, f, i, gap, batch) && IsRound(l, f, l', f', i, gap, batch)
    ensures Answered(l, f, l', f', i, batch, request, response)
  {
    RoundAllowed(l, f, i, gap, batch);
    RequestIsPiece(l, f, i, gap, batch);
    request := RequestTo(l, i, gap, batch);
    AppendEffect(f, request);
    FollowerAfter(f, request);
    response := HandleAppendRequest(f, request).1;
    if response.accepted {
      LeaderAdvances(l, response, f.id, i);
    } else {
      LeaderRewinds(l, response, f.id, i);
    }
  }

  lemma RejectedLinks(l: Node, f: Node, l': Node, f': Node, i: nat, gap: nat, batch: nat,
                      request: AppendRequest, response: AppendResponse)
    requires Linked(l, f, i, gap, batch) && !Agrees(l, f, i)
    requires Rejected(f, request, f', response) && f'.term == l.term && f'.role == Follower
    requires l' == l.(peers := l.peers[i := RewoundTo(l.peers[i], f.log.End())])
    ensures StepsBack(l, f, l', f', i) && Linked(l', f', i, gap, batch)
    ensures l'.peers[i].nextIndex < l.peers[i].nextIndex
  {
    PeerIndexStays(l.peers, i, RewoundTo(l.peers[i], f.log.End()));
  }

  /** The follower once it has accepted the leader's request. */
  predicate FollowerHolds(l: Node, f: Node, f': Node, next: nat) {
    && 1 <= next <= l.log.End() && l.log.start == 1
    && l.log.entries[..next - 1] <= f'.log.entries
    && Matching(l.log.entries, f'.log.entries)
    && f'.log.start == 1 && f'.Retains() && Fixed(f') && f'.servers == f.servers && f'.id == f.id
    && !f'.transferring && f'.term == l.term && f'.role == Follower
  }

  lemma AcceptedHolds(l: Node, f: Node, f': Node, request: AppendRequest, response: AppendResponse)
    requires f.log.start == l.log.start == 1 && Fixed(f) && !f.transferring
    requires Matching(l.log.entries, f.log.entries) && Accepted(f, request, f', response)
    requires f'.term == l.term && request.lastLogIndex + |request.entries| <= |l.log.entries|
    requires request.entries == l.log.entries[request.lastLogIndex..request.lastLogIndex + |request.entries|]
    requires request.lastLogIndex > 0 ==> request.lastLogTerm == l.log.entries[request.lastLogIndex - 1].term
    ensures FollowerHolds(l, f, f', response.nextIndex)
  {
    MergesLeaders(l.log.entries, f.log.entries, request.lastLogIndex, request.entries);
  }

  lemma AcceptedLinks(l: Node, f: Node, l': Node, f': Node, i: nat, gap: nat, batch: nat, response: AppendResponse)
    requires Linked(l, f, i, gap, batch)
    requires response.nextIndex == Least(l.peers[i].nextIndex + batch, l.log.End())
    requires FollowerHolds(l, f, f', response.nextIndex)
    requires Advanced(l, l', i, response)
    ensures StepsOn(l, l', f', i, batch) && Linked(l', f', i, gap, batch) && Agrees(l', f', i)
  {
    PeerIndexStays(l.peers, i, l'.peers[i]);
    var last := response.nextIndex - 1;
    assert last > 0 ==> l.log.entries[..last][last - 1] == f'.log.entries[last - 1];
  }

  lemma {:induction false} PeerIndexStays(peers: seq<Peer>, i: nat, peer: Peer)
    requires i < |peers| && PeerIndex(peers, peer.id) == i
    ensures PeerIndex(peers[i := peer], peer.id) == i
  {
    if i > 0 {
      PeerIndexStays(peers[1..], i - 1, peer);
      assert peers[i := peer][1..] == peers[1..][i - 1 := peer];
    }
  }

  lemma FollowerAfter(f: Node, request: AppendRequest)
    requires f.Retains() && AppendRequestAllowed(f, request) && request.serverId in f.servers
    requires !f.transferring && request.transfer.None? && f.term <= request.term
    ensures HandleAppendRequest(f, request).1.accepted <==> Fits(f.log, request)
    ensures HandleAppendRequest(f, request).1.term == request.term
    ensures HandleAppendRequest(f, request).0.term == request.term
    ensures HandleAppendRequest(f, request).0.role == Follower
  {
    AcknowledgeEffect(f, request);
    AcknowledgedReplicates(f, request);
    var n1 := Acknowledge(f, request);
    if Fits(f.log, request) {
      ReplicateAccepts(n1, request);
      CommitKeepsTerm(TakeEntries(n1, request), request.commitIndex);
    } else {
      ReplicateRejects(n1, request, n1, false);
    }
  }

  lemma LeaderRewinds(l: Node, response: AppendResponse, from: Id, i: nat)
    requires l.Retains() && l.role == Leader && i < |l.peers| && PeerIndex(l.peers, from) == i
    requires response.serverId == from && response.term == l.term
    requires !response.accepted && !response.transferRequired
    ensures HandlePeerAppendResponse(l, from, response).0
      == l.(peers := l.peers[i := RewoundTo(l.peers[i], response.nextIndex)])
  {}

  lemma LeaderAdvances(l: Node, response: AppendResponse, from: Id, i: nat)
    requires l.Retains() && Fixed(l) && l.role == Leader && i < |l.peers| && PeerIndex(l.peers, from) == i
    requires response.serverId == from && response.term == l.term
    requires response.accepted && response.nextIndex >= 1
    ensures Advanced(l, HandlePeerAppendResponse(l, from, response).0, i, response)
  {
    var n1 := l.(peers := l.peers[i := l.peers[i].(rewindStep := 1, nextIndex := response.nextIndex,
                                                   matched := response.nextIndex - 1)]);
    ResponseAccepted(l, response, i, n1);
    CommitFixed(n1, Median(Reached(n1)));
  }

  /** Merging a piece of the leader's log, below which both agree, leaves the leader's log up to its end. */
  lemma MergesLeaders(led: seq<Entry>, log: seq<Entry>, at: nat, batch: seq<Entry>)
    requires Matching(led, log) && at <= |log| && at + |batch| <= |led| && batch == led[at..at + |batch|]
    requires at > 0 ==> led[at - 1].term == log[at - 1].term
    ensures led[..at + |batch|] <= MergeAt(log, at, batch)
    ensures Matching(led, MergeAt(log, at, batch))
  {
    var keep := Agreement(log[at..], batch);
    AgreementParts(log[at..], batch);
    var c := at + keep;
    if keep > 0 {
      assert log[c - 1] == log[at..][keep - 1] && led[c - 1] == batch[keep - 1];
    }
    assert c > 0 ==> MatchingAt(led, log, c - 1);
    assert led[..c] == log[..c];
    if keep < |batch| {
      SplicedIsLed(led, log, at, batch, keep);
      PrefixMatches(led, at + |batch|);
    }
  }

  lemma SplicedIsLed(led: seq<Entry>, log: seq<Entry>, at: nat, batch: seq<Entry>, keep: nat)
    requires at + keep <= |log| && keep < |batch| && at + |batch| <= |led|
    requires batch == led[at..at + |batch|] && led[..at + keep] == log[..at + keep]
    ensures Spliced(log, at, batch, keep) == led[..at + |batch|]
  {
    assert led[..at + |batch|] == led[..at + keep] + led[at + keep..at + |batch|];
  }

  lemma PrefixMatches(led: seq<Entry>, k: nat)
    requires k <= |led|
    ensures Matching(led, led[..k])
  {}

  //
  // All rounds
  //

  function Pow2(k: nat): nat {
    if k == 0 then 1 else 2 * Pow2(k - 1)
  }

  predicate RoundAt(ls: seq<Node>, fs: seq<Node>, k: nat, i: nat, gap: nat, batch: nat)
    requires |ls| == |fs| && k + 1 < |ls|
  {
    Linked(ls[k], fs[k], i, gap, batch) && IsRound(ls[k], fs[k], ls[k + 1], fs[k + 1], i, gap, batch)
  }

  /** One round after another, from this leader and this follower. */
  predicate Rounds(ls: seq<Node>, fs: seq<Node>, l: Node, f: Node, i: nat, gap: nat, batch: nat) {
    && |ls| == |fs| >= 1 && ls[0] == l && fs[0] == f
    && forall k: nat {:trigger RoundAt(ls, fs, k, i, gap, batch)} :: k + 1 < |ls| ==>
         RoundAt(ls, fs, k, i, gap, batch)
  }

  lemma RoundsFrom(
    ls: seq<Node>, fs: seq<Node>, l: Node, f: Node, l1: Node, f1: Node, i: nat, gap: nat, batch: nat)
    requires Linked(l, f, i, gap, batch) && IsRound(l, f, l1, f1, i, gap, batch)
    requires Rounds(ls, fs, l1, f1, i, gap, batch)
    ensures Rounds([l] + ls, [f] + fs, l, f, i, gap, batch)
  {
    var ls', fs' := [l] + ls, [f] + fs;
    forall k: nat | k + 1 < |ls'| ensures RoundAt(ls', fs', k, i, gap, batch) {
      if k > 0 {
        assert RoundAt(ls, fs, k - 1, i, gap, batch);
      }
    }
  }

  lemma NextRound(l: Node, f: Node, i: nat, gap: nat, batch: nat) returns (l': Node, f': Node)
    requires Linked(l, f, i, gap, batch)
    ensures IsRound(l, f, l', f', i, gap, batch)
  {
    RoundAllowed(l, f, i, gap, batch);
    var request := RequestTo(l, i, gap, batch);
    FollowerAfter(f, request);
    AppendEffect(f, request);
    var response := HandleAppendRequest(f, request).1;
    f' := HandleAppendRequest(f, request).0;
    l' := HandlePeerAppendResponse(l, f.id, response).0;
  }

  /** A round from the one pair leads to the other, so that rounds from there are rounds from here. */
  ghost predicate Leads(l: Node, f: Node, l1: Node, f1: Node, i: nat, gap: nat, batch: nat) {
    forall ls, fs {:trigger Rounds(ls, fs, l1, f1, i, gap, batch)} ::
      Rounds(ls, fs, l1, f1, i, gap, batch) ==> Rounds([l] + ls, [f] + fs, l, f, i, gap, batch)
  }

  lemma RoundLeads(l: Node, f: Node, l1: Node, f1: Node, i: nat, gap: nat, batch: nat)
    requires Linked(l, f, i, gap, batch) && IsRound(l, f, l1, f1, i, gap, batch)
    ensures Leads(l, f, l1, f1, i, gap, batch)
  {
    forall ls, fs | Rounds(ls, fs, l1, f1, i, gap, batch)
      ensures Rounds([l] + ls, [f] + fs, l, f, i, gap, batch)
    {
      RoundsFrom(ls, fs, l, f, l1, f1, i, gap, batch);
    }
  }

  lemma TakeRound(l: Node, f: Node, i: nat, gap: nat, batch: nat)
    returns (l1: Node, f1: Node, request: AppendRequest, response: AppendResponse)
    requires Linked(l, f, i, gap, batch)
    ensures Leads(l, f, l1, f1, i, gap, batch)
    ensures Answered(l, f, l1, f1, i, batch, request, response)
  {
    l1, f1 := NextRound(l, f, i, gap, batch);
    request, response := RoundIs(l, f, l1, f1, i, gap, batch);
    RoundLeads(l, f, l1, f1, i, gap, batch);
  }

  lemma OneBack(l: Node, f: Node, i: nat, gap: nat, batch: nat) returns (l1: Node, f1: Node)
    requires Linked(l, f, i, gap, batch) && !Agrees(l, f, i)
    ensures Leads(l, f, l1, f1, i, gap, batch) && Linked(l1, f1, i, gap, batch)
    ensures StepsBack(l, f, l1, f1, i) && l1.peers[i].nextIndex < l.peers[i].nextIndex
  {
    var request, response;
    l1, f1, request, response := TakeRound(l, f, i, gap, batch);
    RejectedLinks(l, f, l1, f1, i, gap, batch, request, response);
  }

  lemma OneOn(l: Node, f: Node, i: nat, gap: nat, batch: nat) returns (l1: Node, f1: Node)
    requires Linked(l, f, i, gap, batch) && Agrees(l, f, i)
    ensures Leads(l, f, l1, f1, i, gap, batch) && Linked(l1, f1, i, gap, batch) && Agrees(l1, f1, i)
    ensures StepsOn(l, l1, f1, i, batch)
  {
    var request, response;
    l1, f1, request, response := TakeRound(l, f, i, gap, batch);
    AcceptedHolds(l, f, f1, request, response);
    AcceptedLinks(l, f, l1, f1, i, gap, batch, response);
  }

  /** Whether this many rejections, the last of them above index 1, can follow from here. */
  predicate Few(peer: Peer, end: nat, rejections: nat) {
    if peer.nextIndex <= end
    then rejections == 0 || peer.rewindStep * (Pow2(rejections - 1) - 1) < peer.nextIndex - 1
    else rejections <= 1 || Pow2(rejections - 2) - 1 < peer.nextIndex - 1
  }

  /** Each rejection doubles the step, so that few remain. */
  lemma OneMoreRejection(peer: Peer, end: nat, rejections: nat)
    requires peer.nextIndex > 1 && peer.rewindStep >= 1 && end >= 1
    requires var after := RewoundTo(peer, end);
      Few(after, end, rejections) && (after.nextIndex == 1 ==> rejections == 0)
    ensures Few(peer, end, rejections + 1)
  {
    if rejections > 0 && peer.nextIndex <= end {
      var s := peer.rewindStep;
      var p := Pow2(rejections - 1);
      assert Pow2(rejections) == 2 * p;
      assert (2 * s) * (p - 1) == s * (2 * p - 1) - s;
      assert s * (Pow2(rejections) - 1) == s * (2 * p - 1);
    }
  }

  /** Rounds of rejections, until the logs agree below the next index. */
  predicate Descent(ls: seq<Node>, fs: seq<Node>, l: Node, f: Node, i: nat, gap: nat, batch: nat) {
    && Rounds(ls, fs, l, f, i, gap, batch)
    && var r := |ls| - 1;
    && Linked(ls[r], fs[r], i, gap, batch) && Agrees(ls[r], fs[r], i)
    && ls[r].log == l.log
    && forall k: nat {:trigger NotYet(ls, fs, k, i)} :: k < r ==> NotYet(ls, fs, k, i)
  }

  lemma DescentFrom(
    ls: seq<Node>, fs: seq<Node>, l: Node, f: Node, l1: Node, f1: Node, i: nat, gap: nat, batch: nat)
    requires Descent(ls, fs, l1, f1, i, gap, batch)
    requires Rounds([l] + ls, [f] + fs, l, f, i, gap, batch)
    requires l1.log == l.log && NotYet([l] + ls, [f] + fs, 0, i)
    ensures Descent([l] + ls, [f] + fs, l, f, i, gap, batch)
  {
    var ls', fs' := [l] + ls, [f] + fs;
    assert ls'[|ls|] == ls[|ls| - 1] && fs'[|ls|] == fs[|ls| - 1];
    forall k: nat | k < |ls'| - 1 ensures NotYet(ls', fs', k, i) {
      if k > 0 {
        NotYetLater(ls, fs, l, f, k - 1, i);
      }
    }
  }

  lemma NotYetLater(ls: seq<Node>, fs: seq<Node>, l: Node, f: Node, k: nat, i: nat)
    requires |ls| == |fs| && k + 1 < |ls| && NotYet(ls, fs, k, i)
    ensures NotYet([l] + ls, [f] + fs, k + 1, i)
  {}

  lemma {:induction false} StepsBackToAgreement(l: Node, f: Node, i: nat, gap: nat, batch: nat)
    returns (ls: seq<Node>, fs: seq<Node>)
    requires Linked(l, f, i, gap, batch)
    ensures Descent(ls, fs, l, f, i, gap, batch)
    ensures Few(l.peers[i], f.log.End(), |ls| - 1)
    ensures l.peers[i].nextIndex == 1 ==> |ls| == 1
    decreases l.peers[i].nextIndex
  {
    if Agrees(l, f, i) {
      ls, fs := [l], [f];
    } else {
      var l1, f1 := OneBack(l, f, i, gap, batch);
      var ls1, fs1 := StepsBackToAgreement(l1, f1, i, gap, batch);
      assert Rounds([l] + ls1, [f] + fs1, l, f, i, gap, batch);
      ls, fs := [l] + ls1, [f] + fs1;
      FirstRejection(ls1, fs1, l, f, l1, i, gap, batch);
      DescentFrom(ls1, fs1, l, f, l1, f1, i, gap, batch);
      OneMoreRejection(l.peers[i], f.log.End(), |ls1| - 1);
    }
  }

  lemma FirstRejection(ls: seq<Node>, fs: seq<Node>, l: Node, f: Node, l1: Node, i: nat, gap: nat, batch: nat)
    requires Linked(l, f, i, gap, batch) && !Agrees(l, f, i)
    requires |ls| == |fs| >= 1 && ls[0] == l1 && i < |l1.peers| && l1.peers[i].nextIndex < l.peers[i].nextIndex
    ensures NotYet([l] + ls, [f] + fs, 0, i)
  {}

  /** This round is a rejection, and moves the next index back. */
  predicate NotYet(ls: seq<Node>, fs: seq<Node>, k: nat, i: nat)
    requires |ls| == |fs| && k + 1 < |ls|
  {
    && i < |ls[k].peers| && i < |ls[k + 1].peers|
    && ls[k].log.start == fs[k].log.start == 1 && 1 <= ls[k].peers[i].nextIndex <= ls[k].log.End()
    && !Agrees(ls[k], fs[k], i)
    && ls[k + 1].peers[i].nextIndex < ls[k].peers[i].nextIndex
  }

  /** Rounds of acceptances, until the next index is the end of the log. */
  predicate Ascent(ls: seq<Node>, fs: seq<Node>, l: Node, f: Node, i: nat, gap: nat, batch: nat) {
    && Rounds(ls, fs, l, f, i, gap, batch)
    && CaughtUp(l, ls[|ls| - 1], fs[|ls| - 1], i)
  }

  /** The leader's log is the start of the follower's, and the leader knows. */
  predicate CaughtUp(l: Node, l': Node, f': Node, i: nat) {
    && l'.log == l.log && i < |l'.peers|
    && l'.peers[i].nextIndex == l.log.End()
    && l'.peers[i].matched == l.log.End() - 1
    && l.log.entries <= f'.log.entries
  }

  lemma {:induction false} StepsOnToEnd(l: Node, f: Node, i: nat, gap: nat, batch: nat)
    returns (ls: seq<Node>, fs: seq<Node>)
    requires Linked(l, f, i, gap, batch) && Agrees(l, f, i)
    ensures Ascent(ls, fs, l, f, i, gap, batch)
    ensures |ls| >= 2 && (|ls| - 2) * batch <= l.log.End() - l.peers[i].nextIndex
    decreases l.log.End() - l.peers[i].nextIndex
  {
    var l1, f1 := OneOn(l, f, i, gap, batch);
    if l1.peers[i].nextIndex == l.log.End() {
      EndReached(l, l1, f1, i, batch);
      AscentFrom([l1], [f1], l, f, l1, f1, i, gap, batch);
      ls, fs := [l] + [l1], [f] + [f1];
    } else {
      var ls1, fs1 := StepsOnToEnd(l1, f1, i, gap, batch);
      AscentFrom(ls1, fs1, l, f, l1, f1, i, gap, batch);
      ls, fs := [l] + ls1, [f] + fs1;
      OneBatch(|ls1| - 2, batch, l.log.End() - l1.peers[i].nextIndex);
    }
  }

  lemma AscentFrom(
    ls: seq<Node>, fs: seq<Node>, l: Node, f: Node, l1: Node, f1: Node, i: nat, gap: nat, batch: nat)
    requires Leads(l, f, l1, f1, i, gap, batch) && l1.log == l.log
    requires Ascent(ls, fs, l1, f1, i, gap, batch)
    ensures Ascent([l] + ls, [f] + fs, l, f, i, gap, batch)
  {
    var ls', fs' := [l] + ls, [f] + fs;
    assert ls'[|ls'| - 1] == ls[|ls| - 1] && fs'[|ls'| - 1] == fs[|ls| - 1];
  }

  lemma EndReached(l: Node, l': Node, f': Node, i: nat, batch: nat)
    requires i < |l.peers| && StepsOn(l, l', f', i, batch) && l'.peers[i].nextIndex == l.log.End()
    requires l.log.start == 1
    ensures CaughtUp(l', l', f', i)
  {
    assert l.log.entries[..|l.log.entries|] == l.log.entries;
  }

  lemma OneBatch(rounds: nat, batch: nat, left: int)
    requires rounds * batch <= left
    ensures (rounds + 1) * batch <= left + batch
  {}

  /**
   Catching up converges. First come rejections, each with a lower next index, and of these at most two
   more than the logarithm of the first next index; then acceptances, one to a batch, after which the
   leader's log is a prefix of the follower's, and the leader has it so.
   */
  lemma CatchesUp(l: Node, f: Node, i: nat, gap: nat, batch: nat)
    returns (ls: seq<Node>, fs: seq<Node>, r: nat)
    requires Linked(l, f, i, gap, batch)
    ensures Rounds(ls, fs, l, f, i, gap, batch)
    ensures r < |ls| - 1 && (|ls| - r - 2) * batch < l.log.End()
    ensures forall k: nat {:trigger NotYet(ls, fs, k, i)} :: k < r ==> NotYet(ls, fs, k, i)
    ensures r >= 2 ==> Pow2(r - 2) < l.peers[i].nextIndex
    ensures CaughtUp(l, ls[|ls| - 1], fs[|ls| - 1], i)
  {
    var ls1, fs1 := StepsBackToAgreement(l, f, i, gap, batch);
    r := |ls1| - 1;
    FewIsLogarithmic(l.peers[i], f.log.End(), r);
    var ls2, fs2 := StepsOnToEnd(ls1[r], fs1[r], i, gap, batch);
    ls, fs := ls1[..r] + ls2, fs1[..r] + fs2;
    RoundsJoin(ls1, fs1, ls2, fs2, l, f, i, gap, batch);
    assert ls[|ls| - 1] == ls2[|ls2| - 1] && fs[|ls| - 1] == fs2[|ls2| - 1];
    forall k: nat | k < r ensures NotYet(ls, fs, k, i) {
      NotYetJoin(ls1, fs1, ls2, fs2, k, i);
    }
  }

  lemma RoundsJoin(
    ls1: seq<Node>, fs1: seq<Node>, ls2: seq<Node>, fs2: seq<Node>,
    l: Node, f: Node, i: nat, gap: nat, batch: nat)
    requires Rounds(ls1, fs1, l, f, i, gap, batch)
    requires Rounds(ls2, fs2, ls1[|ls1| - 1], fs1[|ls1| - 1], i, gap, batch)
    ensures Rounds(ls1[..|ls1| - 1] + ls2, fs1[..|ls1| - 1] + fs2, l, f, i, gap, batch)
  {
    var r := |ls1| - 1;
    var ls, fs := ls1[..r] + ls2, fs1[..r] + fs2;
    forall k: nat | k + 1 < |ls| ensures RoundAt(ls, fs, k, i, gap, batch) {
      if k < r {
        RoundJoined(ls1, fs1, ls2, fs2, k, i, gap, batch);
      } else {
        RoundShifted(ls1[..r], fs1[..r], ls2, fs2, k - r, i, gap, batch);
      }
    }
  }

  lemma RoundJoined(
    ls1: seq<Node>, fs1: seq<Node>, ls2: seq<Node>, fs2: seq<Node>, k: nat, i: nat, gap: nat, batch: nat)
    requires |ls1| == |fs1| && |ls2| == |fs2| >= 1 && k + 1 < |ls1| && RoundAt(ls1, fs1, k, i, gap, batch)
    requires ls2[0] == ls1[|ls1| - 1] && fs2[0] == fs1[|ls1| - 1]
    ensures RoundAt(ls1[..|ls1| - 1] + ls2, fs1[..|ls1| - 1] + fs2, k, i, gap, batch)
  {
    RoundSame(ls1, fs1, k, ls1[..|ls1| - 1] + ls2, fs1[..|ls1| - 1] + fs2, k, i, gap, batch);
  }

  lemma RoundShifted(
    ls1: seq<Node>, fs1: seq<Node>, ls2: seq<Node>, fs2: seq<Node>, k: nat, i: nat, gap: nat, batch: nat)
    requires |ls1| == |fs1| && |ls2| == |fs2| && k + 1 < |ls2| && RoundAt(ls2, fs2, k, i, gap, batch)
    ensures RoundAt(ls1 + ls2, fs1 + fs2, |ls1| + k, i, gap, batch)
  {
    RoundSame(ls2, fs2, k, ls1 + ls2, fs1 + fs2, |ls1| + k, i, gap, batch);
  }

  lemma RoundSame(
    ls: seq<Node>, fs: seq<Node>, k: nat, ls': seq<Node>, fs': seq<Node>, k': nat,
    i: nat, gap: nat, batch: nat)
    requires |ls| == |fs| && k + 1 < |ls| && |ls'| == |fs'| && k' + 1 < |ls'|
    requires ls[k] == ls'[k'] && fs[k] == fs'[k'] && ls[k + 1] == ls'[k' + 1] && fs[k + 1] == fs'[k' + 1]
    requires RoundAt(ls, fs, k, i, gap, batch)
    ensures RoundAt(ls', fs', k', i, gap, batch)
  {}

  lemma NotYetJoin(ls1: seq<Node>, fs1: seq<Node>, ls2: seq<Node>, fs2: seq<Node>, k: nat, i: nat)
    requires |ls1| == |fs1| && |ls2| == |fs2| >= 1 && k + 1 < |ls1| && NotYet(ls1, fs1, k, i)
    requires ls2[0] == ls1[|ls1| - 1] && fs2[0] == fs1[|ls1| - 1]
    ensures NotYet(ls1[..|ls1| - 1] + ls2, fs1[..|ls1| - 1] + fs2, k, i)
  {
    var r := |ls1| - 1;
    var ls, fs := ls1[..r] + ls2, fs1[..r] + fs2;
    assert ls[k] == ls1[k] && fs[k] == fs1[k] && ls[k + 1] == ls1[k + 1];
  }

  lemma FewIsLogarithmic(peer: Peer, end: nat, rejections: nat)
    requires peer.nextIndex >= 1 && peer.rewindStep >= 1 && Few(peer, end, rejections)
    ensures rejections >= 2 ==> Pow2(rejections - 2) < peer.nextIndex
  {
    if rejections >= 2 {
      var p := Pow2(rejections - 2);
      Pow2Positive(rejections - 2);
      assert Pow2(rejections - 1) == 2 * p;
      AtLeast(peer.rewindStep, 2 * p - 1);
    }
  }

  lemma AtLeast(a: nat, b: nat)
    requires a >= 1
    ensures a * b >= b
  {}

  lemma {:induction false} Pow2Positive(k: nat)
    ensures Pow2(k) >= 1
  {
    if k > 0 {
      Pow2Positive(k - 1);
    }
  }
}
