/**
 What servers hand to their state machines: each log index once, in order, and how far.
 */
module Applying {
  import opened Types
  import opened Log
  import opened Handlers
  import opened NodeFacts
  import opened HandedOver
  import opened Group
  import opened GroupInv
  import opened Safety

  //
  // Every run
  //

  lemma StepHands(g: Group, e: Event, g': Group)
    requires Step(g, e, g')
    ensures Actor(e) < |g.nodes| == |g'.nodes| && Hands(g.nodes[Actor(e)], g'.nodes[Actor(e)])
  {
    var n := g.nodes[Actor(e)];
    match e
    case Timeout(i) =>
      if n.role != Leader { RequestElectionHands(n); }
    case ReceiveVoteRequest(p, open) => VoteRequestUncommitted(n, p.vote, open);
    case ReceiveVoteResponse(p) => VoteResponseHands(n, p.ballot.serverId, p.ballot);
    case ReceiveAppendRequest(p) => RequestStepHands(g, p, g');
    case ReceiveAppendResponse(p) => AppendResponseHands(n, p.answer.serverId, p.answer);
    case ReceivePublish(i, request) => PublishHands(n, request);
    case _ => AsideHands(g, e, g');
  }

  lemma AsideHands(g: Group, e: Event, g': Group)
    requires Step(g, e, g') && (e.SendAppend? || e.GiveUp? || e.LockCommits?)
    ensures Actor(e) < |g.nodes| == |g'.nodes| && Hands(g.nodes[Actor(e)], g'.nodes[Actor(e)])
  {}

  lemma RequestStepHands(g: Group, p: Packet, g': Group)
    requires Step(g, ReceiveAppendRequest(p), g')
    ensures p.to < |g.nodes| == |g'.nodes| && Hands(g.nodes[p.to], g'.nodes[p.to])
  {
    if AppendRequestAllowed(g.nodes[p.to], p.append) {
      AppendRequestHands(g.nodes[p.to], p.append);
    }
  }

  /** In a step of a run, every server hands over entries of its log, if anything. */
  lemma RunHands(states: seq<Group>, events: seq<Event>, k: nat, i: nat)
    requires Run(states, events) && k < |events| && i < |states[0].nodes|
    ensures |states[k].nodes| == |states[k + 1].nodes| == |states[0].nodes|
    ensures states[k + 1].nodes[i].Retains() && Hands(states[k].nodes[i], states[k + 1].nodes[i])
  {
    RunInv(states, events, k);
    RunInv(states, events, k + 1);
    LogsStartAtOne(states, events, k + 1, i);
    assert StepAt(states, events, k);
    StepObserved(states[k], events[k], states[k + 1]);
    StepHands(states[k], events[k], states[k + 1]);
  }

  /**
   In any run, however its leaders came to be, each server hands its state machine the log indices
   1, 2, 3 and so on, none skipped and none repeated, up to its committed index.
   */
  lemma {:induction false} AppliedInOrder(states: seq<Group>, events: seq<Event>, k: nat, i: nat)
    requires Run(states, events) && k < |states| && i < |states[k].nodes|
    ensures InOrder(states[k].nodes[i])
  {
    RunInv(states, events, k);
    if k > 0 {
      RunHands(states, events, k - 1, i);
      AppliedInOrder(states, events, k - 1, i);
      ProgressInOrder(states[k - 1].nodes[i], states[k].nodes[i]);
    }
  }

  /** What was handed over stays handed over, and commit indices never go back. */
  lemma {:induction false} AppliedForGood(states: seq<Group>, events: seq<Event>, a: nat, b: nat, i: nat)
    requires Run(states, events) && a <= b < |states| && i < |states[0].nodes|
    ensures |states[a].nodes| == |states[b].nodes| == |states[0].nodes|
    ensures Progress(states[a].nodes[i], states[b].nodes[i])
    decreases b - a
  {
    RunInv(states, events, a);
    if a < b {
      RunHands(states, events, b - 1, i);
      AppliedForGood(states, events, a, b - 1, i);
      ProgressTrans(states[a].nodes[i], states[b - 1].nodes[i], states[b].nodes[i]);
    }
  }

  predicate KeepsAt(states: seq<Group>, k: nat, i: nat)
    requires k + 1 < |states|
  {
    && i < |states[k].nodes| && i < |states[k + 1].nodes|
    && KeepsCommitted(states[k].nodes[i], states[k + 1].nodes[i])
  }

  ghost predicate NeverCut(states: seq<Group>, i: nat) {
    forall k: nat {:trigger KeepsAt(states, k, i)} :: k + 1 < |states| ==> KeepsAt(states, k, i)
  }

  /**
   In any run in which a server's log is never cut at or below its committed index, what it has handed
   to its state machine is its log up to there, and the log reaches that far.
   */
  lemma {:induction false} AppliedIsLog(states: seq<Group>, events: seq<Event>, k: nat, i: nat)
    requires Run(states, events) && k < |states| && i < |states[k].nodes| && NeverCut(states, i)
    ensures Matches(states[k].nodes[i])
  {
    RunInv(states, events, k);
    if k > 0 {
      assert KeepsAt(states, k - 1, i);
      AppliedIsLog(states, events, k - 1, i);
      AppliedInOrder(states, events, k - 1, i);
      RunHands(states, events, k - 1, i);
      HandsMatches(states[k - 1].nodes[i], states[k].nodes[i]);
    } else {
      StartMatches(|states[0].nodes|, i);
    }
  }

  lemma StartMatches(size: nat, i: nat)
    requires i < size
    ensures Matches(NewGroup(size).nodes[i])
  {
    assert NewGroup(size).nodes[i] == Started(i, Ids(size));
  }

  //
  // A group of one
  //

  /** Everything in the log is committed, and commits are not locked. */
  predicate AllCommitted(n: Node) {
    n.commitIndex == n.quickCommit == n.log.End() - 1 && !n.commitsLocked && n.log.start == 1
  }

  lemma AloneTakesOver(n: Node)
    requires n.Retains() && Fixed(n) && n.peers == [] && AllCommitted(n)
    ensures AllCommitted(BecomeLeader(n))
  {
    var n1 := CompleteElection(n);
    var n2 := n1.(election := n1.election.(timerStarted := false, transients := []),
                  role := Leader, leaderId := Some(n.id));
    var n3 := ApplyTransientStates(n2, n1.election.transients);
    assert Fixed(n3);
    TakeOverFixed(n3);
    AloneCommitsLog(TakeOver(n3));
  }

  lemma AloneCommitsLog(n: Node)
    requires n.Retains() && n.peers == [] && !n.commitsLocked && n.log.start == 1
    requires n.commitIndex <= n.log.End() - 1 && n.quickCommit <= n.log.End() - 1
    ensures AllCommitted(CommitAlone(n))
  {
    AloneCommitsAll(n);
    CommitFixedLock(n, n.log.End() - 1);
  }

  lemma CommitFixedLock(n: Node, index: nat)
    requires n.Retains()
    ensures Commit(n, index).commitsLocked == n.commitsLocked
  {
    CommitEntriesLock(if index > n.quickCommit then n.(quickCommit := index) else n);
  }

  lemma {:induction false} CommitEntriesLock(n: Node)
    requires n.Retains()
    ensures CommitEntries(n).commitsLocked == n.commitsLocked
    decreases n.quickCommit - n.commitIndex
  {
    if CommitDue(n) {
      CommitEntriesLock(CommitNext(n));
    }
  }

  lemma AloneStands(n: Node)
    requires n.Retains() && Fixed(n) && n.peers == [] && AllCommitted(n) && n.role == Follower
    ensures AllCommitted(RequestElection(n).node)
  {
    if !n.election.locked {
      var n1 := EnterTerm(ClearElection(RestartTimer(n)));
      var n2 := ClearElection(RestartTimer(n1));
      AloneLeads(n1, n2);
      AloneTakesOver(n2);
    }
  }

  lemma AlonePublishes(n: Node, request: PublishRequest)
    requires n.Retains() && n.peers == [] && AllCommitted(n)
    ensures AllCommitted(HandlePublish(n, request).0)
  {
    if n.role == Leader {
      var n1 := Received(n, request);
      ReceivedKeeps(n.(sessions := Sessions.Ensure(n.sessions, request.clientId)),
                    request.clientId, request.messages);
      AloneCommitsLog(n1);
    }
  }

  lemma AloneStepCommits(g: Group, e: Event, g': Group)
    requires AlwaysInv(g) && Step(g, e, g') && |g.nodes| == 1 && AllCommitted(g.nodes[0])
    requires e.LockCommits? ==> !e.locked
    ensures |g'.nodes| == 1 && AllCommitted(g'.nodes[0])
  {
    var n := g.nodes[0];
    assert NodeOk(g, 0);
    assert (e.ReceiveVoteRequest? || e.ReceiveVoteResponse? || e.ReceiveAppendRequest?
            || e.ReceiveAppendResponse?) ==> PacketOk(g, e.p);
    if e.Timeout? && n.role != Leader {
      AloneStands(n);
    } else if e.ReceivePublish? {
      AlonePublishes(n, e.request);
    }
  }

  /** In any run of a group of one whose commits are never locked, all that its log has is committed. */
  lemma {:induction false} AloneCommitsAtOnce(states: seq<Group>, events: seq<Event>, k: nat)
    requires Run(states, events) && k < |states| && |states[0].nodes| == 1
    requires forall j: nat {:trigger events[j]} :: j < |events| && events[j].LockCommits? ==> !events[j].locked
    ensures |states[k].nodes| == 1 && AllCommitted(states[k].nodes[0])
  {
    if k > 0 {
      AloneCommitsAtOnce(states, events, k - 1);
      RunInv(states, events, k - 1);
      assert StepAt(states, events, k - 1);
      AloneStepCommits(states[k - 1], events[k - 1], states[k]);
    }
  }

  //
  // How far a follower commits
  //

  /** What an accepted request verified of the receiver's log: all up to its last entry. */
  function Verified(request: AppendRequest): nat {
    request.lastLogIndex + |request.entries|
  }

  /** Some entry of the request has another term than the receiver's entry at its index. */
  ghost predicate Conflicts(log: Log, request: AppendRequest) {
    exists i :: 0 <= i < |request.entries| && ConflictsAt(log, request, i)
  }

  predicate ConflictsAt(log: Log, request: AppendRequest, i: nat)
    requires i < |request.entries|
  {
    var index := request.lastLogIndex + 1 + i;
    log.start <= index < log.End() && log.At(index).term != request.entries[i].term
  }

  /** A conflict cuts the log to what the request verified; otherwise it keeps what reaches further. */
  lemma MergedEnd(log: Log, request: AppendRequest)
    requires request.entries != [] && log.start <= request.lastLogIndex + 1 <= log.End()
    ensures log.Merge(request.lastLogIndex + 1, request.entries).End() - 1
      == if Conflicts(log, request) then Verified(request) else Greatest(log.End() - 1, Verified(request))
  {
    var at := request.lastLogIndex + 1 - log.start;
    var tail, batch := log.entries[at..], request.entries;
    var keep := Agreement(tail, batch);
    AgreementParts(tail, batch);
    assert keep < |batch| && keep < |tail| ==> ConflictsAt(log, request, keep);
    if Conflicts(log, request) {
      var i :| 0 <= i < |batch| && ConflictsAt(log, request, i);
      assert tail[i].term != batch[i].term;
    }
  }

  /**
   Commits are locked, or neither commit index reaches beyond what the request verifies or was committed,
   or the log does not, or the request conflicts with the log and so cuts it there.
   */
  ghost predicate VerifiedOnly(n: Node, request: AppendRequest) {
    || n.commitsLocked
    || Greatest(n.quickCommit, request.commitIndex) <= Greatest(n.commitIndex, Verified(request))
    || n.log.End() - 1 <= Greatest(n.commitIndex, Verified(request))
    || Conflicts(n.log, request)
  }

  /** An accepted request makes its receiver commit no entry that it did not verify if and only if that. */
  lemma CommitsVerifiedOnly(n: Node, request: AppendRequest)
    requires Accepting(n, request)
    ensures var r := HandleAppendRequest(n, request).0;
      (r.commitIndex > n.commitIndex ==> r.commitIndex <= Verified(request))
      <==> VerifiedOnly(n, request)
  {
    var n1 := AcceptedIsCommit(n, request);
    ReachOf(n1, request);
    VerifiedOnlyOf(n, n1, request);
  }

  lemma AcceptedIsCommit(n: Node, request: AppendRequest) returns (n1: Node)
    requires Accepting(n, request)
    ensures n1 == Acknowledge(n, request) && n1.Retains() && Fits(n1.log, request)
    ensures request.entries != [] ==> n1.log.start <= request.lastLogIndex + 1
    ensures HandleAppendRequest(n, request).0 == Commit(TakeEntries(n1, request), request.commitIndex)
  {
    AcknowledgedReplicates(n, request);
    n1 := Acknowledge(n, request);
    AcceptedReplicates(n1, request);
    ReplicateAccepts(n1, request);
  }

  lemma VerifiedOnlyOf(n: Node, n1: Node, request: AppendRequest)
    requires n1.commitsLocked == n.commitsLocked && n1.log == n.log
    requires n1.quickCommit == n.quickCommit && n1.commitIndex == n.commitIndex
    ensures VerifiedOnly(n1, request) <==> VerifiedOnly(n, request)
  {}

  /** How far an accepted request makes its receiver commit, against what it verified. */
  lemma ReachOf(n: Node, request: AppendRequest)
    requires n.Retains() && Fits(n.log, request)
    requires request.entries != [] ==> n.log.start <= request.lastLogIndex + 1
    ensures var r := Commit(TakeEntries(n, request), request.commitIndex);
      (r.commitIndex > n.commitIndex ==> r.commitIndex <= Verified(request))
      <==> VerifiedOnly(n, request)
  {
    var n1 := TakeEntries(n, request);
    TakenEnd(n, request);
    CommitHands(n1, request.commitIndex);
    if !n.commitsLocked {
      Reaches(n.commitIndex, Greatest(n.quickCommit, request.commitIndex), n.log.End() - 1, Verified(request),
              n1.log.End() - 1, Conflicts(n.log, request));
    }
  }

  /** The least of how far commits go and the log reaches is verified, or was committed, if one of them is. */
  lemma Reaches(committed: nat, quick: nat, before: int, verified: nat, after: int, conflicts: bool)
    requires if conflicts then after == verified else after == before || after == Greatest(before, verified)
    ensures var reach := Greatest(committed, Least(quick, after));
      (reach > committed ==> reach <= verified)
      <==> (quick <= Greatest(committed, verified) || before <= Greatest(committed, verified) || conflicts)
  {}

  lemma TakenEnd(n: Node, request: AppendRequest)
    requires n.log.start >= 1 && Fits(n.log, request)
    requires request.entries != [] ==> n.log.start <= request.lastLogIndex + 1
    ensures var end := TakeEntries(n, request).log.End() - 1;
      if request.entries == [] then end == n.log.End() - 1 && !Conflicts(n.log, request)
      else if Conflicts(n.log, request) then end == Verified(request)
      else end == Greatest(n.log.End() - 1, Verified(request))
  {
    if request.entries != [] {
      MergedEnd(n.log, request);
    } else {
      assert !Conflicts(n.log, request);
    }
  }

  lemma AcceptedReplicates(n: Node, request: AppendRequest)
    requires Replicates(n, request) && Replicate(n, request).1.accepted
    ensures !TransferRequired(n.log, request)
    ensures !(request.term < n.term || !Fits(n.log, request) || n.transferring)
  {}
}
