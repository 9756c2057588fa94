/**
 What two servers make of each other's messages: whom a server votes for, what a leader sends a peer, when
 a peer is to be sent the state of the log instead, and when more is sent.
 */
module Exchange {
  import opened Types
  import opened Log
  import opened Handlers
  import opened NodeFacts
  import opened HandedOver
  import opened GroupSteps

  //
  // Votes
  //

  /** The server's vote of a term is free for the candidate. */
  predicate FreeFor(n: Node, term: nat, candidate: Id) {
    term > n.term || n.votedFor.None? || n.votedFor == Some(candidate)
  }

  /** The candidate's log is at least as good as the server's. */
  predicate LogUpToDate(request: VoteRequest, log: Log) {
    var last := if log.entries == [] then 0 else log.entries[|log.entries| - 1].term;
    request.lastLogTerm > last || (request.lastLogTerm == last && request.lastLogIndex + 1 >= log.End())
  }

  /**
   A server grants a vote exactly if its voting time has come, the candidate is of its group and of its
   term or, for a real vote, of a later one, has as good a log, and for a real vote has it free. A real
   request of a later term makes it a follower of that term, whether it votes or not; a pre-vote, or one
   that is not heard, changes nothing.
   */
  lemma VotesExactly(n: Node, request: VoteRequest, open: bool)
    requires n.log.start >= 1
    ensures var (r, response) := HandleVoteRequest(n, request, open);
      var heard := open && request.serverId in n.servers;
      && (response.accepted <==>
            && heard && LogUpToDate(request, n.log)
            && if request.preVote then request.term == n.term
               else request.term >= n.term && FreeFor(n, request.term, request.serverId))
      && Voted(n, request, heard, r, response)
  {
    VoterEffect(n, request);
    if open && request.serverId in n.servers {
      VotesHeard(n, request, Voter(n, request));
    }
  }

  /** What a request does to a server, and the term in which it answers. */
  predicate Voted(n: Node, request: VoteRequest, heard: bool, r: Node, response: VoteResponse) {
    && response.serverId == n.id && response.term == r.term
    && r.term == (if heard && !request.preVote && request.term > n.term then request.term else n.term)
    && r.votedFor == (if response.accepted && !request.preVote then Some(request.serverId)
                      else if r.term > n.term then None else n.votedFor)
    && (r.term == n.term ==> r == n.(votedFor := r.votedFor))
    && (r.term > n.term ==> r.role == Follower && r.election.voted == [] && !r.election.completed)
  }

  lemma VotesHeard(n: Node, request: VoteRequest, n1: Node)
    requires n.log.start >= 1 && request.serverId in n.servers && n1 == Voter(n, request)
    ensures var (r, response) := HandleVoteRequest(n, request, true);
      && (response.accepted <==>
            && request.term == n1.term && LogUpToDate(request, n.log)
            && (request.preVote || FreeFor(n1, n1.term, request.serverId)))
      && Voted(n, request, true, r, response)
  {}

  //
  // Requests for entries
  //

  /** A leader asks for a transfer if entries that the peer lacks are compacted, or too many are lacking. */
  predicate NeedsTransfer(log: Log, last: nat, gap: nat) {
    (log.start > 1 && last < log.start) || log.End() - 1 - last >= gap
  }

  /**
   A leader sends a peer what comes at its next index, as much as a batch takes, with the term of the
   entry before, which it always has; or asks for a transfer, if and only if the peer needs one.
   */
  lemma SendsExactly(n: Node, peer: Peer, gap: nat, batch: nat)
    requires CanCreateAppendRequest(n, peer) && n.log.start >= 1
    ensures var r := CreateAppendRequest(n, peer, gap, batch);
      && r.serverId == n.id && r.term == n.term && r.lastLogIndex == peer.nextIndex - 1
      && r.commitIndex == n.quickCommit
      && (r.transfer.Some? <==> NeedsTransfer(n.log, r.lastLogIndex, gap))
      && (r.transfer == Some(Snapshot) <==> n.log.start > 1 && r.lastLogIndex < n.log.start)
      && (r.transfer.None? ==> ComesNext(n.log, r, batch))
  {
    if NeedsTransfer(n.log, peer.nextIndex - 1, gap) {
      SendsTransfer(n, peer, gap, batch);
    } else {
      SendsEntries(n, peer, gap, batch);
    }
  }

  lemma SendsTransfer(n: Node, peer: Peer, gap: nat, batch: nat)
    requires CanCreateAppendRequest(n, peer) && n.log.start >= 1 && NeedsTransfer(n.log, peer.nextIndex - 1, gap)
    ensures var r, last := CreateAppendRequest(n, peer, gap, batch), peer.nextIndex - 1;
      && r.serverId == n.id && r.term == n.term && r.lastLogIndex == last && r.commitIndex == n.quickCommit
      && r.transfer == Some(if n.log.start > 1 && last < n.log.start then Snapshot else LogTail)
  {}

  lemma SendsEntries(n: Node, peer: Peer, gap: nat, batch: nat)
    requires CanCreateAppendRequest(n, peer) && n.log.start >= 1 && !NeedsTransfer(n.log, peer.nextIndex - 1, gap)
    ensures var r, last := CreateAppendRequest(n, peer, gap, batch), peer.nextIndex - 1;
      && r.serverId == n.id && r.term == n.term && r.lastLogIndex == last && r.commitIndex == n.quickCommit
      && r.transfer.None? && ComesNext(n.log, r, batch)
      && !(n.log.start > 1 && last < n.log.start)
  {
    CreatedFor(n, peer, gap, batch);
    IsNext(n.log, CreateAppendRequest(n, peer, gap, batch), batch);
  }

  lemma CreatedFor(n: Node, peer: Peer, gap: nat, batch: nat)
    requires CanCreateAppendRequest(n, peer) && n.log.start >= 1 && !NeedsTransfer(n.log, peer.nextIndex - 1, gap)
    ensures var last := peer.nextIndex - 1;
      && n.log.start <= last + 1 <= n.log.End() && (n.log.start > 1 ==> n.log.start <= last)
      && CreateAppendRequest(n, peer, gap, batch)
         == AppendRequest(n.id, n.term, n.log.TermAt(last), last, n.quickCommit,
                          NextEntries(n.log, last, batch), None)
  {
    assert !TransferDue(n.log, peer.nextIndex - 1, gap);
  }

  lemma IsNext(log: Log, request: AppendRequest, batch: nat)
    requires var last := request.lastLogIndex;
      && 1 <= log.start <= last + 1 <= log.End() && (log.start > 1 ==> log.start <= last)
      && request.entries == NextEntries(log, last, batch) && request.lastLogTerm == log.TermAt(last)
    ensures ComesNext(log, request, batch)
  {
    EntriesNext(log, request.lastLogIndex, batch);
  }

  /** The request has the entries that come next, and the term of the one before, if there is one. */
  predicate ComesNext(log: Log, request: AppendRequest, batch: nat) {
    var last := request.lastLogIndex;
    && log.start <= last + 1 <= log.End()
    && |request.entries| == Least(batch, log.End() - last - 1)
    && (forall i :: 0 <= i < |request.entries| ==> request.entries[i] == log.At(last + 1 + i))
    && (if last > 0 then log.start <= last && request.lastLogTerm == log.At(last).term
        else request.lastLogTerm == 0)
  }

  lemma EntriesNext(log: Log, last: nat, batch: nat)
    requires log.start <= last + 1 <= log.End()
    ensures var r := NextEntries(log, last, batch);
      && |r| == Least(batch, log.End() - last - 1)
      && forall i :: 0 <= i < |r| ==> r[i] == log.At(last + 1 + i)
  {}

  //
  // Transfers
  //

  /** The request is for a transfer that the receiver takes up: of everything, or of what follows its log. */
  predicate TakesTransfer(log: Log, request: AppendRequest) {
    request.transfer == Some(Snapshot) || (request.transfer == Some(LogTail) && Fits(log, request))
  }

  /** A known server's request for a transfer begins one, and says where the receiver's log ends. */
  lemma TransferExactly(n: Node, request: AppendRequest)
    requires n.Retains() && AppendRequestAllowed(n, request) && request.serverId in n.servers
    ensures var (r, response) := HandleAppendRequest(n, request); Transfers(n, request, r, response)
  {
    AcknowledgedReplicates(n, request);
    var n1 := Acknowledge(n, request);
    ReplicateTransfers(n1, request);
    var (r, response) := HandleAppendRequest(n, request);
    assert Transfers(n1, request, r, response);
  }

  predicate Transfers(n: Node, request: AppendRequest, r: Node, response: AppendResponse) {
    && (response.transferRequired <==> TakesTransfer(n.log, request))
    && r.transferring == (n.transferring || TakesTransfer(n.log, request))
    && (r.transferring ==> !response.accepted && Uncommitted(n, r) && r.log == n.log)
    && (!response.accepted ==> response.nextIndex == n.log.End() && response.term == r.term)
  }

  lemma ReplicateTransfers(n: Node, request: AppendRequest)
    requires Replicates(n, request)
    ensures var (r, response) := Replicate(n, request); Transfers(n, request, r, response)
  {
    TransferIs(n.log, request);
    var transfer := TransferRequired(n.log, request);
    var n1 := if transfer then n.(transferring := true) else n;
    if request.term < n1.term || !Fits(n1.log, request) || n1.transferring {
      ReplicateRejects(n, request, n1, transfer);
    } else {
      AcceptsWithout(n, request);
    }
  }

  lemma TransferIs(log: Log, request: AppendRequest)
    ensures TransferRequired(log, request) <==> TakesTransfer(log, request)
  {
    match request.transfer
    case None =>
    case Some(Snapshot) =>
    case Some(LogTail) =>
  }

  lemma AcceptsWithout(n: Node, request: AppendRequest)
    requires Replicates(n, request) && !TransferRequired(n.log, request)
    requires !(request.term < n.term || !Fits(n.log, request) || n.transferring)
    ensures var (r, response) := Replicate(n, request);
      response.accepted && !response.transferRequired && !r.transferring && !TakesTransfer(n.log, request)
  {
    TransferIs(n.log, request);
    ReplicateAccepts(n, request);
    CommitKeepsTransfer(TakeEntries(n, request), request.commitIndex);
  }

  lemma CommitKeepsTransfer(n: Node, index: nat)
    requires n.Retains()
    ensures Commit(n, index).transferring == n.transferring
  {
    CommitEntriesKeepTransfer(if index > n.quickCommit then n.(quickCommit := index) else n);
  }

  lemma {:induction false} CommitEntriesKeepTransfer(n: Node)
    requires n.Retains()
    ensures CommitEntries(n).transferring == n.transferring
    decreases n.quickCommit - n.commitIndex
  {
    if CommitDue(n) {
      CommitEntriesKeepTransfer(CommitNext(n));
    }
  }

  //
  // Responses
  //

  /** The leader's peer of this id, if it has one. */
  predicate HasPeer(n: Node, id: Id) {
    exists i :: 0 <= i < |n.peers| && n.peers[i].id == id
  }

  /** What is not from a peer is ignored. */
  lemma StrangersIgnored(n: Node, from: Id, ballot: VoteResponse, answer: AppendResponse)
    requires n.Retains() && !HasPeer(n, from) && (answer.accepted ==> answer.nextIndex >= 1)
    ensures HandlePeerVoteResponse(n, from, ballot) == Effect(n, None)
    ensures HandlePeerAppendResponse(n, from, answer) == (n, false)
  {}

  /** A server leaves a request of no server of its group alone, and its answer disturbs no leader. */
  lemma UnknownSenderIgnored(n: Node, request: AppendRequest, l: Node)
    requires n.Retains() && request.serverId !in n.servers && l.Retains() && l.term > 0
    ensures AppendRequestAllowed(n, request)
    ensures var (r, response) := HandleAppendRequest(n, request);
      r == n && HandlePeerAppendResponse(l, n.id, response) == (l, false)
  {}

  /**
   A leader sends a peer more at once exactly if its response leaves it behind: it accepted, and the next
   index is not the end of the log yet; or it refused, and has no transfer to wait for.
   */
  lemma SendsMoreExactly(n: Node, answer: AppendResponse)
    requires n.Retains() && (answer.accepted ==> answer.nextIndex >= 1)
    ensures var (r, more) := HandlePeerAppendResponse(n, answer.serverId, answer);
      more <==>
        && n.role == Leader && answer.term == n.term && HasPeer(n, answer.serverId)
        && if answer.accepted then answer.nextIndex < r.log.End() else !answer.transferRequired
  {
    var i := PeerIndex(n.peers, answer.serverId);
    if i < |n.peers| {
      AppendResponseCases(n, answer);
      MoreAfter(n, answer, i);
    } else {
      assert !HasPeer(n, answer.serverId);
    }
  }

  lemma MoreAfter(n: Node, answer: AppendResponse, i: nat)
    requires n.Retains() && (answer.accepted ==> answer.nextIndex >= 1)
    requires i == PeerIndex(n.peers, answer.serverId) < |n.peers|
    ensures HasPeer(n, answer.serverId)
    ensures var (r, more) := HandlePeerAppendResponse(n, answer.serverId, answer);
      more <==>
        && n.role == Leader && answer.term == n.term
        && if answer.accepted then answer.nextIndex < r.log.End() else !answer.transferRequired
  {
    if answer.term == n.term && n.role == Leader {
      if answer.accepted {
        var n1 := MatchedPeer(n, answer);
        ResponseAccepted(n, answer, i, n1);
        CommitHands(n1, Median(Reached(n1)));
      } else {
        ResponseRejected(n, answer, i);
      }
    }
  }

  /** A leader looks at a peer that waits for a transfer from the end of the peer's log on. */
  lemma RewindsToEnd(l: Node, f: Node, request: AppendRequest)
    requires f.Retains() && AppendRequestAllowed(f, request) && request.serverId in f.servers
    requires TakesTransfer(f.log, request)
    requires l.Retains() && l.role == Leader && PeerIndex(l.peers, f.id) < |l.peers|
    requires l.term == HandleAppendRequest(f, request).1.term
    ensures var response := HandleAppendRequest(f, request).1;
      var i := PeerIndex(l.peers, f.id);
      && response.serverId == f.id
      && HandlePeerAppendResponse(l, f.id, response)
         == (l.(peers := l.peers[i := l.peers[i].(rewindStep := 1, nextIndex := f.log.End())]), false)
  {
    TransferExactly(f, request);
    AnswerIsOwn(f, request);
    ResponseRejected(l, HandleAppendRequest(f, request).1, PeerIndex(l.peers, f.id));
  }

  lemma AnswerIsOwn(n: Node, request: AppendRequest)
    requires n.Retains() && AppendRequestAllowed(n, request)
    ensures HandleAppendRequest(n, request).1.serverId == n.id
  {}
}
