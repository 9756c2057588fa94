/**
 The runs of one server: whatever it is asked and answered, while its group may change and its log may
 be compacted between any two handlers.
 */
module ServerRuns {
  import opened Types
  import opened Log
  import opened LogStore
  import opened Handlers
  import opened NodeFacts
  import opened HandedOver
  import opened Server

  datatype Event =
    | Timeout
    | VoteAsked(vote: VoteRequest, open: bool)
    | VoteAnswered(from: Id, ballot: VoteResponse)
    | AppendAsked(append: AppendRequest)
    | AppendAnswered(from: Id, answer: AppendResponse)
    | Publishing(publish: PublishRequest)
    | Joining(join: JoinRequest, gap: nat)
    | Leaving(serverId: Id)
    | SteppingDown(lock: bool)
    | Locking(locked: bool)
    | Compacting(count: nat)

  /** No assertion of the original fails; compaction stops at the committed index. */
  predicate Enabled(n: Node, e: Event) {
    match e
    case Timeout => n.role != Leader
    case AppendAsked(request) => AppendRequestAllowed(n, request)
    case AppendAnswered(_, response) => response.accepted ==> response.nextIndex >= 1
    case Compacting(count) => count <= |n.log.entries| && n.log.start + count <= n.commitIndex
    case _ => true
  }

  function Next(n: Node, e: Event): Node
    requires n.Retains() && Enabled(n, e)
  {
    match e
    case Timeout => RequestElection(n).node
    case VoteAsked(request, open) => HandleVoteRequest(n, request, open).0
    case VoteAnswered(from, response) => HandlePeerVoteResponse(n, from, response).node
    case AppendAsked(request) => HandleAppendRequest(n, request).0
    case AppendAnswered(from, response) => HandlePeerAppendResponse(n, from, response).0
    case Publishing(publish) => HandlePublish(n, publish).0
    case Joining(join, gap) => HandleJoin(n, join, gap).0
    case Leaving(serverId) => HandleLeave(n, serverId).0
    case SteppingDown(lock) => StepDown(n, lock)
    case Locking(locked) => n.(commitsLocked := locked)
    case Compacting(count) => n.(log := n.log.Forget(count))
  }

  /** An event takes the server on; that its log retains what is read is no condition of the run. */
  predicate Goes(n: Node, e: Event, r: Node) {
    n.Retains() ==> Enabled(n, e) && r == Next(n, e)
  }

  predicate NextAt(ns: seq<Node>, events: seq<Event>, k: nat)
    requires |ns| == |events| + 1 && k < |events|
  {
    Goes(ns[k], events[k], ns[k + 1])
  }

  ghost predicate Run(ns: seq<Node>, events: seq<Event>) {
    && |ns| == |events| + 1
    && ns[0] == Started(ns[0].id, ns[0].servers)
    && forall k: nat {:trigger NextAt(ns, events, k)} :: k < |events| ==> NextAt(ns, events, k)
  }

  lemma NextProgress(n: Node, e: Event)
    requires n.Retains() && Enabled(n, e)
    ensures Progress(n, Next(n, e))
    ensures !e.Compacting? ==> Hands(n, Next(n, e))
  {
    match e
    case Timeout => RequestElectionHands(n);
    case VoteAsked(request, open) => VoteRequestUncommitted(n, request, open);
    case VoteAnswered(from, response) => VoteResponseHands(n, from, response);
    case AppendAsked(request) => AppendRequestHands(n, request);
    case AppendAnswered(from, response) => AppendResponseHands(n, from, response);
    case Publishing(publish) => PublishHands(n, publish);
    case Joining(join, gap) => JoinHands(n, join, gap);
    case Leaving(serverId) => LeaveHands(n, serverId);
    case SteppingDown(lock) =>
    case Locking(locked) =>
    case Compacting(count) =>
  }

  /** What an event of a run does: the log is compacted, or entries of it are handed over. */
  lemma RunNext(ns: seq<Node>, events: seq<Event>, k: nat)
    requires Run(ns, events) && k < |events| && ns[k].Retains()
    ensures Progress(ns[k], ns[k + 1])
    ensures if events[k].Compacting?
            then && events[k].count <= |ns[k].log.entries|
                 && ns[k + 1] == ns[k].(log := ns[k].log.Forget(events[k].count))
            else Hands(ns[k], ns[k + 1])
  {
    assert NextAt(ns, events, k);
    NextProgress(ns[k], events[k]);
  }

  /**
   No commit reads a compacted index: at any time in any run of a server the log still has the entry
   after the committed index, if it ever had it, and what was handed over is in order.
   */
  lemma {:induction false} NeverReadsCompacted(ns: seq<Node>, events: seq<Event>, k: nat)
    requires Run(ns, events) && k < |ns|
    ensures ns[k].Retains() && InOrder(ns[k])
  {
    if k > 0 {
      NeverReadsCompacted(ns, events, k - 1);
      RunNext(ns, events, k - 1);
      ProgressInOrder(ns[k - 1], ns[k]);
    }
  }

  /** What was handed over stays handed over, and commit indices never go back. */
  lemma {:induction false} ProgressesOnly(ns: seq<Node>, events: seq<Event>, a: nat, b: nat)
    requires Run(ns, events) && a <= b < |ns|
    ensures Progress(ns[a], ns[b])
    decreases b - a
  {
    if a < b {
      ProgressesOnly(ns, events, a, b - 1);
      NeverReadsCompacted(ns, events, b - 1);
      RunNext(ns, events, b - 1);
      ProgressTrans(ns[a], ns[b - 1], ns[b]);
    }
  }

  predicate KeepsAt(ns: seq<Node>, k: nat)
    requires k + 1 < |ns|
  {
    KeepsCommitted(ns[k], ns[k + 1])
  }

  ghost predicate NeverCut(ns: seq<Node>) {
    forall k: nat {:trigger KeepsAt(ns, k)} :: k + 1 < |ns| ==> KeepsAt(ns, k)
  }

  /**
   While the log is never cut at or below the committed index, except by compaction, what was handed
   over is the log up to there, as far as it is retained.
   */
  lemma {:induction false} AppliedIsRetainedLog(ns: seq<Node>, events: seq<Event>, k: nat)
    requires Run(ns, events) && k < |ns| && NeverCut(ns)
    ensures Matches(ns[k])
  {
    if k > 0 {
      AppliedIsRetainedLog(ns, events, k - 1);
      NextMatches(ns, events, k - 1);
    }
  }

  lemma NextMatches(ns: seq<Node>, events: seq<Event>, k: nat)
    requires Run(ns, events) && k < |events| && NeverCut(ns) && Matches(ns[k])
    ensures Matches(ns[k + 1])
  {
    NeverReadsCompacted(ns, events, k);
    RunNext(ns, events, k);
    assert KeepsAt(ns, k);
    if events[k].Compacting? {
      ForgettingMatches(ns[k], events[k].count);
    } else {
      HandsMatches(ns[k], ns[k + 1]);
    }
  }

  lemma ForgettingMatches(n: Node, count: nat)
    requires Matches(n) && count <= |n.log.entries|
    ensures Matches(n.(log := n.log.Forget(count)))
  {
    var r := n.(log := n.log.Forget(count));
    forall k | 0 <= k < |r.machine| && r.machine[k].index >= r.log.start
      ensures IsEntryAt(r.machine[k], r.log)
    {
      assert IsEntryAt(n.machine[k], n.log);
    }
  }

  /** What a handler of class `Server` compacts on top of its effect is an event of its own. */
  lemma CompactsIsEvent(n: Node, r: Node)
    requires Compacts(n, r) && r != n
    ensures var e := Compacting(r.log.start - n.log.start); Enabled(n, e) && r.log.start > n.log.start
    ensures n.Retains() ==> r == Next(n, Compacting(r.log.start - n.log.start)) && r.Retains()
  {
    assert n.log.Forget(0) == n.log;
  }

  //
  // The read of a compacted index that does happen
  //

  /**
   For the request of a known server, unless it reaches a leader of its own term, the assertions of the
   original hold exactly if it is not a first request, with entries, for a log that no longer has its
   start. (A request does not carry the mark of an unknown term, which its sender checks.)
   */
  lemma AllowedExactly(n: Node, request: AppendRequest)
    requires n.Retains() && request.serverId in n.servers
    requires !(n.role == Leader && request.term == n.term)
    requires request.lastLogTerm != TERM_UNKNOWN
    ensures AppendRequestAllowed(n, request) <==>
      !(&& request.term >= n.term && request.transfer.None? && !n.transferring
        && request.entries != [] && request.lastLogIndex == 0 && n.log.start > 1)
  {}

  /** The first request of a leader, which commits two entries. */
  function FirstRequest(): AppendRequest {
    var e := Entry(1, Application([]), None, 0);
    AppendRequest(0, 1, 0, 0, 2, [e, e], None)
  }

  /**
   A follower takes the first request of its leader and commits it, then compacts its log. When the
   same request arrives again, it reads the compacted index 1.
   */
  lemma StaleRequestReadsCompacted() returns (ns: seq<Node>, events: seq<Event>)
    ensures Run(ns, events) && |events| == 2 && events[0] == AppendAsked(FirstRequest())
    ensures events[1].Compacting? && ns[2].log.start == 2
    ensures !AppendRequestAllowed(ns[2], FirstRequest())
  {
    var n := Started(1, [0, 1]);
    var r := FirstRequestCommits(n);
    ns, events := StaleRun(n, r);
  }

  /** A server with an empty log commits what its first request brings. */
  lemma FirstRequestCommits(n: Node) returns (r: Node)
    requires n.log == Log(1, []) && n.servers == [0, 1] && n.role == Follower && n.term == 0
    requires n.commitIndex == n.quickCommit == 0 && !n.commitsLocked && !n.transferring
    ensures AppendRequestAllowed(n, FirstRequest()) && r == HandleAppendRequest(n, FirstRequest()).0
    ensures HasCommitted(r)
  {
    var request := FirstRequest();
    var n1 := Acknowledge(n, request);
    AcknowledgedReplicates(n, request);
    ReplicateAccepts(n1, request);
    r := HandleAppendRequest(n, request).0;
    FirstTaken(n1);
  }

  predicate HasCommitted(r: Node) {
    && r.Retains() && r.commitIndex == 2 && r.log == Log(1, FirstRequest().entries) && r.servers == [0, 1]
    && !r.transferring && r.role == Follower && r.term == 1
  }

  lemma FirstTaken(n: Node)
    requires n.log == Log(1, []) && n.servers == [0, 1] && n.role == Follower && n.term == 1
    requires n.commitIndex == n.quickCommit == 0 && !n.commitsLocked && !n.transferring
    ensures HasCommitted(Commit(TakeEntries(n, FirstRequest()), 2))
  {
    var n1 := TakeEntries(n, FirstRequest());
    Merges.MergeCases(n.log, 1, FirstRequest().entries, 0);
    assert n1.log.entries == FirstRequest().entries;
    CommitHands(n1, 2);
    CommitKeepsServers(n1, 2);
  }

  lemma StaleRun(n: Node, r: Node) returns (ns: seq<Node>, events: seq<Event>)
    requires n == Started(n.id, n.servers) && n.Retains() && AppendRequestAllowed(n, FirstRequest())
    requires r == HandleAppendRequest(n, FirstRequest()).0 && HasCommitted(r)
    ensures Run(ns, events) && |events| == 2 && events[0] == AppendAsked(FirstRequest())
    ensures events[1].Compacting? && ns[2].log.start == 2
    ensures !AppendRequestAllowed(ns[2], FirstRequest())
  {
    var r1 := r.(log := r.log.Forget(1));
    Stale(r, r1);
    NextIsAppend(n, r, FirstRequest());
    RunOfTwo(n, r, r1, AppendAsked(FirstRequest()), Compacting(1));
    events := [AppendAsked(FirstRequest()), Compacting(1)];
    ns := [n, r, r1];
  }

  lemma RunOfTwo(n: Node, r: Node, r1: Node, e: Event, e1: Event)
    requires n == Started(n.id, n.servers) && Goes(n, e, r) && Goes(r, e1, r1)
    ensures Run([n, r, r1], [e, e1])
  {
    var ns, events := [n, r, r1], [e, e1];
    forall k: nat | k < |events| ensures NextAt(ns, events, k) {
      assert k == 0 || k == 1;
    }
  }

  lemma NextIsAppend(n: Node, r: Node, request: AppendRequest)
    requires n.Retains() && AppendRequestAllowed(n, request) && r == HandleAppendRequest(n, request).0
    ensures Goes(n, AppendAsked(request), r)
  {}

  lemma Stale(r: Node, r1: Node)
    requires HasCommitted(r) && r1 == r.(log := r.log.Forget(1))
    ensures Goes(r, Compacting(1), r1)
    ensures r1.log.start == 2 && !AppendRequestAllowed(r1, FirstRequest())
  {
    AllowedExactly(r1, FirstRequest());
  }

  /** Without configurations in the log, committing keeps the one in force. */
  lemma CommitKeepsServers(n: Node, index: nat)
    requires n.Retains() && forall k :: 0 <= k < |n.log.entries| ==> n.log.entries[k].value.Application?
    ensures Commit(n, index).servers == n.servers && Commit(n, index).transferring == n.transferring
    ensures Commit(n, index).role == n.role && Commit(n, index).term == n.term
  {
    CommitKeepsTerm(n, index);
    CommitEntriesKeepServers(if index > n.quickCommit then n.(quickCommit := index) else n);
  }

  lemma {:induction false} CommitEntriesKeepServers(n: Node)
    requires n.Retains() && forall k :: 0 <= k < |n.log.entries| ==> n.log.entries[k].value.Application?
    ensures CommitEntries(n).servers == n.servers && CommitEntries(n).transferring == n.transferring
    decreases n.quickCommit - n.commitIndex
  {
    if CommitDue(n) {
      CommitEntriesKeepServers(CommitNext(n));
    }
  }
}
