/**
 The state of one server, and what each of its message and timer handlers does to it.

 Every function here is the effect of one method of class `Server`, which is proved against it;
 the runs of a whole group (module `Group`) are built from the same functions.
 */
module Handlers {
  import opened Types
  import opened Log
  import opened Sessions

  datatype Role = Follower | Candidate | Leader

  datatype Peer = Peer(id: Id, nextIndex: nat, matched: nat, rewindStep: nat, started: bool)

  /** The volatile state of an election. */
  datatype Election = Election(
    voted: seq<Id>,
    granted: nat,
    completed: bool,
    preVote: bool,
    timerStarted: bool,
    locked: bool,
    transients: seq<(Id, TransientState)>)

  /** A log entry that was handed to the state machine, with its index. */
  datatype Applied = Applied(index: nat, value: Value)

  datatype Node = Node(
    id: Id,
    servers: seq<Id>,
    term: nat,
    votedFor: Option<Id>,
    commitIndex: nat,
    role: Role,
    leaderId: Option<Id>,
    peers: seq<Peer>,
    quickCommit: nat,
    configurationChanging: bool,
    catchingUp: bool,
    election: Election,
    commitsLocked: bool,
    transferring: bool,
    sessions: seq<Session>,
    log: Log,
    machine: seq<Applied>)
  {
    /** What the log must still hold for the next commit not to read a compacted index. */
    predicate Retains() {
      1 <= log.start <= commitIndex + 1 && commitIndex <= quickCommit
    }
  }

  //
  // The start
  //

  /** The peers a server starts with, one for each other server of its configuration. */
  function InitialPeers(servers: seq<Id>, self: Id): seq<Peer> {
    if servers == [] then []
    else (if servers[0] == self then [] else [Peer(servers[0], 1, 0, 1, false)])
         + InitialPeers(servers[1..], self)
  }

  /** A server that starts with this configuration, nothing persisted and an empty log. */
  function Started(id: Id, servers: seq<Id>): Node {
    Node(id, servers, 0, None, 0, Follower, None, InitialPeers(servers, id), 0, false, id !in servers,
         Election([], 0, false, false, id in servers, false, []), false, false, [], Log(1, []), [])
  }

  /** What a server keeps through a restart. */
  datatype Persistent = Persistent(term: nat, votedFor: Option<Id>, commitIndex: nat)

  /** A server that starts again, with a log that is cleared if it does not reach the committed index. */
  function Restarted(id: Id, servers: seq<Id>, p: Persistent, log: Log): Node {
    Started(id, servers).(
      term := p.term, votedFor := p.votedFor, commitIndex := p.commitIndex, quickCommit := p.commitIndex,
      log := if log.End() - 1 < p.commitIndex then Log(p.commitIndex, []) else log)
  }

  //
  // Terms and roles
  //

  function UpdateTerm(n: Node, term: nat): Node {
    if term > n.term then n.(term := term, votedFor := None) else n
  }

  function RestartTimer(n: Node): Node {
    if n.catchingUp then n else n.(election := n.election.(timerStarted := true))
  }

  function ClearElection(n: Node): Node {
    n.(election := n.election.(
         completed := false, granted := 0, voted := [], transients := [], preVote := false))
  }

  function StopPeers(peers: seq<Peer>): (r: seq<Peer>)
    ensures |r| == |peers|
    ensures forall i :: 0 <= i < |r| ==> r[i] == peers[i].(started := false)
  {
    if peers == [] then [] else [peers[0].(started := false)] + StopPeers(peers[1..])
  }

  function BecomeFollower(n: Node): (r: Node)
    ensures r == n.(role := Follower, peers := r.peers, election := r.election)
  {
    var n1 := RestartTimer(ClearElection(n).(role := Follower));
    n1.(peers := StopPeers(n1.peers))
  }

  function DelayElection(n: Node): Node {
    var n1 := RestartTimer(n);
    n1.(election := n1.election.(locked := false))
  }

  /** A leader that lost touch with its peers, or closes gracefully, steps down. */
  function StepDown(n: Node, lock: bool): Node {
    var n1 := BecomeFollower(n);
    if lock then n1.(election := n1.election.(locked := true)) else n1
  }

  //
  // Voting
  //

  function NewerOrEqual(lastTerm: nat, lastIndex: nat, log: Log): bool
    requires log.End() > 0
  {
    lastTerm > log.LastTerm() || (lastTerm == log.LastTerm() && lastIndex >= log.End() - 1)
  }

  /** `open` says that the server's next voting time has come. */
  function HandleVoteRequest(n: Node, request: VoteRequest, open: bool): (Node, VoteResponse)
    requires n.log.start >= 1
  {
    if !open || request.serverId !in n.servers then
      (n, VoteResponse(n.id, false, n.term, None))
    else
      var n1 := Voter(n, request);
      var accepted :=
        && request.term == n1.term
        && NewerOrEqual(request.lastLogTerm, request.lastLogIndex, n1.log)
        && (request.preVote || n1.votedFor.None? || n1.votedFor == Some(request.serverId));
      if accepted && !request.preVote then
        var n2 := n1.(votedFor := Some(request.serverId));
        (n2, VoteResponse(n.id, true, n2.term, Some(AcquireTransientState(n2))))
      else
        (n1, VoteResponse(n.id, accepted, n1.term, None))
  }

  /** The voter once it has taken over the term of a request that is no pre-vote. */
  function Voter(n: Node, request: VoteRequest): (r: Node)
    ensures r == n.(term := r.term, votedFor := r.votedFor, role := r.role, peers := r.peers,
                    election := r.election)
  {
    if !request.preVote && request.term > n.term then BecomeFollower(UpdateTerm(n, request.term)) else n
  }

  function AcquireTransientState(n: Node): TransientState {
    TransientState(Marks(n.sessions), n.quickCommit)
  }

  /** A handler's new state, and the vote request it sends to every peer, if any. */
  datatype Effect = Effect(node: Node, broadcast: Option<VoteRequest>)

  function RequestVotes(n: Node, preVote: bool): Effect
    requires n.log.start >= 1
  {
    Effect(n.(election := n.election.(granted := 1, voted := n.election.voted + [n.id])),
           Some(VoteRequest(n.id, n.term, n.log.LastTerm(), n.log.End() - 1, preVote)))
  }

  /** The election timer fired. The original asserts that the server is not the leader. */
  function RequestElection(n: Node): Effect
    requires n.role != Leader
    requires n.Retains()
  {
    if n.catchingUp || n.election.locked then Effect(n, None)
    else
      var n1 := ClearElection(RestartTimer(n));
      if n1.peers == [] then BecomeCandidate(n1)
      else RequestVotes(n1.(election := n1.election.(preVote := true)), true)
  }

  function BecomeCandidate(n: Node): Effect
    requires n.Retains()
  {
    if n.role == Candidate then Effect(n, None) else RequestVoteForSelf(EnterTerm(n))
  }

  /** A server that stands for election enters the next term. */
  function EnterTerm(n: Node): Node {
    n.(term := n.term + 1, votedFor := None, role := Candidate)
  }

  function RequestVoteForSelf(n: Node): Effect
    requires n.Retains()
  {
    var n1 := ClearElection(RestartTimer(n));
    if n1.peers == [] then Effect(BecomeLeader(n1), None)
    else RequestVotes(n1.(votedFor := Some(n1.id)), false)
  }

  /** A vote response of the current term. */
  function HandleVoteResponse(n: Node, response: VoteResponse): Effect
    requires n.Retains()
  {
    if n.election.completed || response.serverId in n.election.voted then Effect(n, None)
    else
      var n1 := Tally(n, response);
      if n1.election.granted > (|n1.peers| + 1) / 2 then
        if n1.election.preVote then BecomeCandidate(n1) else Effect(BecomeLeader(n1), None)
      else
        Effect(n1, None)
  }

  /** The election once a response is counted; it is over when everyone has answered. */
  function Tally(n: Node, response: VoteResponse): (r: Node)
    ensures r == n.(election := r.election)
  {
    var n1 := CountVote(n, response);
    if |n1.election.voted| >= |n1.peers| + 1 then CompleteElection(n1) else n1
  }

  function CountVote(n: Node, response: VoteResponse): Node {
    var e := n.election.(voted := n.election.voted + [response.serverId]);
    var e1 := if response.accepted then e.(granted := e.granted + 1) else e;
    var e2 := if response.accepted && !e1.preVote && response.transientState.Some?
              then e1.(transients := PutTransient(e1.transients, response.serverId,
                                                  response.transientState.value))
              else e1;
    n.(election := e2)
  }

  function PutTransient(transients: seq<(Id, TransientState)>, id: Id, state: TransientState)
    : seq<(Id, TransientState)>
  {
    if transients == [] then [(id, state)]
    else if transients[0].0 == id then [(id, state)] + transients[1..]
    else [transients[0]] + PutTransient(transients[1..], id, state)
  }

  function CompleteElection(n: Node): Node {
    n.(election := n.election.(preVote := false, completed := true))
  }

  function BecomeLeader(n: Node): Node
    requires n.Retains()
  {
    var n1 := CompleteElection(n);
    var n2 := n1.(election := n1.election.(timerStarted := false, transients := []),
                  role := Leader, leaderId := Some(n.id));
    OnLeader(ApplyTransientStates(n2, n1.election.transients))
  }

  //
  // Leadership
  //

  function MinCommit(commitIndex: nat, states: seq<(Id, TransientState)>): nat {
    if states == [] then commitIndex
    else
      var first := states[0].1.commitIndex;
      MinCommit(if commitIndex > first then first else commitIndex, states[1..])
  }

  function ApplyMark(sessions: seq<Session>, mark: SessionMark): seq<Session> {
    var session := Lookup(sessions, mark.clientId);
    if session.lastCommitted < mark.lastCommitted
    then Put(sessions, session.Commit(mark.lastCommitted).(committed := false))
    else Ensure(sessions, mark.clientId)
  }

  function ApplyMarks(sessions: seq<Session>, marks: seq<SessionMark>): seq<Session>
    decreases |marks|
  {
    if marks == [] then sessions
    else ApplyMarks(ApplyMark(sessions, marks[0]), marks[1..])
  }

  function ApplyAllMarks(sessions: seq<Session>, states: seq<(Id, TransientState)>): seq<Session>
    decreases |states|
  {
    if states == [] then sessions
    else ApplyAllMarks(ApplyMarks(sessions, states[0].1.sessions), states[1..])
  }

  /** The sessions once every entry has set what its client's session last received. */
  function ReceiveEntries(sessions: seq<Session>, entries: seq<Entry>): seq<Session>
    decreases |entries|
  {
    if entries == [] then sessions
    else ReceiveEntries(ReceiveEntry(sessions, entries[0]), entries[1..])
  }

  function ReceiveEntry(sessions: seq<Session>, entry: Entry): seq<Session> {
    if entry.clientId.Some?
    then Put(sessions, Lookup(sessions, entry.clientId.value).(lastReceived := entry.messageId))
    else sessions
  }

  function ApplyTransientStates(n: Node, states: seq<(Id, TransientState)>): (r: Node)
    ensures r == n.(sessions := r.sessions)
  {
    n.(sessions := ReceiveEntries(ApplyAllMarks(n.sessions, states), Scanned(n, states)))
  }

  /** The entries a new leader looks at: those above every commit index it knows of. */
  function Scanned(n: Node, states: seq<(Id, TransientState)>): seq<Entry> {
    var from := MinCommit(n.quickCommit, states) + 1;
    var first := if from < n.log.start then n.log.start else from;
    if first <= n.log.End() then n.log.Slice(first, n.log.End()) else []
  }

  function StartPeers(peers: seq<Peer>, nextIndex: nat): (r: seq<Peer>)
    ensures |r| == |peers|
    ensures forall i :: 0 <= i < |r| ==> r[i] == peers[i].(nextIndex := nextIndex, started := true)
  {
    if peers == [] then []
    else [peers[0].(nextIndex := nextIndex, started := true)] + StartPeers(peers[1..], nextIndex)
  }

  /** A new leader's state before it commits or sends anything. */
  function TakeOver(n: Node): (r: Node)
    requires n.Retains()
    ensures r.Retains()
  {
    var n1 := if n.quickCommit == 0 then AddInitialConfiguration(n) else n;
    var n2 := n1.(peers := StartPeers(n1.peers, n1.log.End()));
    DetectConfigurations(n2, n2.quickCommit + 1)
  }

  function OnLeader(n: Node): Node
    requires n.Retains()
  {
    CommitAlone(TakeOver(n))
  }

  function InitialConfiguration(n: Node): Entry {
    Entry(n.term, Configuration(n.servers, |n.servers|), None, 0)
  }

  function AddInitialConfiguration(n: Node): Node {
    n.(log := n.log.Append(InitialConfiguration(n)), configurationChanging := true)
  }

  /** A new leader takes over the configurations that are not committed yet. */
  function DetectConfigurations(n: Node, index: nat): (r: Node)
    requires n.log.start <= index
    ensures r.log == n.log && r.commitIndex == n.commitIndex && r.quickCommit == n.quickCommit
    decreases n.log.End() - index
  {
    if index >= n.log.End() then n
    else
      var value := n.log.At(index).value;
      var n1 := if value.Configuration?
                then Reconfigure(n, value.servers).(configurationChanging := true) else n;
      DetectConfigurations(n1, index + 1)
  }

  //
  // Membership
  //

  function Missing(from: seq<Id>, others: seq<Id>): seq<Id> {
    if from == [] then []
    else (if from[0] in others then [] else [from[0]]) + Missing(from[1..], others)
  }

  /** The peers with a new one for each added server but this one. */
  function AddPeers(peers: seq<Peer>, added: seq<Id>, self: Id, nextIndex: nat, start: bool): seq<Peer>
    decreases |added|
  {
    if added == [] then peers
    else
      AddPeers(if added[0] == self then peers else peers + [Peer(added[0], nextIndex, 0, 1, start)],
               added[1..], self, nextIndex, start)
  }

  function PeerIndex(peers: seq<Peer>, id: Id): (i: nat)
    ensures i <= |peers|
    ensures i < |peers| ==> peers[i].id == id
    ensures forall j :: 0 <= j < i ==> peers[j].id != id
  {
    if peers == [] then 0 else if peers[0].id == id then 0 else 1 + PeerIndex(peers[1..], id)
  }

  function RemovePeer(peers: seq<Peer>, id: Id): seq<Peer> {
    var i := PeerIndex(peers, id);
    if i < |peers| then peers[..i] + peers[i + 1..] else peers
  }

  function RemovePeers(peers: seq<Peer>, removed: seq<Id>, self: Id, catchingUp: bool): seq<Peer> {
    if removed == [] then peers
    else
      RemovePeers(if removed[0] == self && !catchingUp then peers else RemovePeer(peers, removed[0]),
                  removed[1..], self, catchingUp)
  }

  function Reconfigure(n: Node, servers: seq<Id>): (r: Node)
    ensures r == n.(configurationChanging := false, servers := servers,
                    peers := r.peers, sessions := r.sessions)
  {
    var removed := Missing(n.servers, servers);
    var peers := AddPeers(n.peers, Missing(servers, n.servers), n.id, n.log.End(), n.role == Leader);
    n.(configurationChanging := false,
       servers := servers,
       peers := RemovePeers(peers, removed, n.id, n.catchingUp),
       sessions := if n.id in removed && !n.catchingUp then [] else n.sessions)
  }

  function CommitConfiguration(n: Node, servers: seq<Id>): (r: Node)
    ensures r == n.(configurationChanging := false, servers := servers,
                    peers := r.peers, sessions := r.sessions, catchingUp := r.catchingUp)
  {
    var n1 := Reconfigure(n, servers);
    if n1.catchingUp && n1.id in servers then n1.(catchingUp := false) else n1
  }

  function Configure(n: Node, servers: seq<Id>): Entry {
    Entry(n.term, Configuration(servers, |servers|), None, 0)
  }

  /** A leader appends a configuration and goes over to it at once. */
  function ChangeServers(n: Node, servers: seq<Id>): (r: Node)
    ensures r.log == n.log.Append(Configure(n, servers))
    ensures r.commitIndex == n.commitIndex && r.quickCommit == n.quickCommit
  {
    Reconfigure(n.(log := n.log.Append(Configure(n, servers))), servers).(configurationChanging := true)
  }

  function Without(servers: seq<Id>, id: Id): seq<Id> {
    if servers == [] then []
    else if servers[0] == id then servers[1..]
    else [servers[0]] + Without(servers[1..], id)
  }

  /** The new state, and the response, to a server that wants to join. */
  function HandleJoin(n: Node, request: JoinRequest, gap: nat): (Node, JoinResponse)
    requires n.Retains()
  {
    if n.role != Leader || n.configurationChanging then
      (n, JoinResponse(n.id, false, n.leaderId, false, false, None, false))
    else if request.serverId in n.servers then
      (n, JoinResponse(n.id, true, n.leaderId, true, false, None, false))
    else if n.log.start > 1 && request.lastLogIndex < n.log.start then
      (n, JoinResponse(n.id, true, n.leaderId, false, true, Some(Snapshot), false))
    else if !FitsAt(n.log, request.lastLogIndex, request.lastLogTerm) then
      (n, JoinResponse(n.id, true, n.leaderId, false, true, None, true))
    else if n.log.End() - 1 - request.lastLogIndex >= gap then
      (n, JoinResponse(n.id, true, n.leaderId, false, true, Some(LogTail), false))
    else
      (CommitAlone(ChangeServers(n, n.servers + [request.serverId])),
       JoinResponse(n.id, true, n.leaderId, false, true, None, false))
  }

  /** The new state, and the response, to a server that wants to leave. */
  function HandleLeave(n: Node, serverId: Id): (Node, LeaveResponse)
    requires n.Retains()
  {
    if n.role != Leader || n.configurationChanging then
      (n, LeaveResponse(n.id, false, n.leaderId, None))
    else if serverId in n.servers then
      (CommitAlone(ChangeServers(n, Without(n.servers, serverId))),
       LeaveResponse(n.id, true, n.leaderId, None))
    else
      (n, LeaveResponse(n.id, true, n.leaderId, Some(n.servers)))
  }

  //
  // Commits
  //

  function Commit(n: Node, index: nat): Node
    requires n.Retains()
  {
    LocalCommit(if index > n.quickCommit then n.(quickCommit := index) else n)
  }

  predicate CommitDue(n: Node) {
    && !n.commitsLocked
    && n.commitIndex < n.quickCommit
    && n.commitIndex + 1 < n.log.End()
  }

  function LocalCommit(n: Node): Node
    requires n.Retains()
  {
    if CommitDue(n) then
      var n1 := CommitEntries(n);
      n1.(sessions := ClearCommitted(n1.sessions))
    else n
  }

  function CommitEntries(n: Node): Node
    requires n.Retains()
    decreases n.quickCommit - n.commitIndex
  {
    if CommitDue(n) then CommitEntries(CommitNext(n)) else n
  }

  function CommitNext(n: Node): (r: Node)
    requires n.Retains() && CommitDue(n)
    ensures r == n.(configurationChanging := r.configurationChanging, servers := r.servers,
                    peers := r.peers, sessions := r.sessions, catchingUp := r.catchingUp,
                    commitIndex := n.commitIndex + 1,
                    machine := n.machine + [Applied(n.commitIndex + 1,
                                                    n.log.At(n.commitIndex + 1).value)])
  {
    var index := n.commitIndex + 1;
    var entry := n.log.At(index);
    Apply(n, entry).(commitIndex := index, machine := n.machine + [Applied(index, entry.value)])
  }

  /** What committing an entry does besides handing it to the state machine. */
  function Apply(n: Node, entry: Entry): (r: Node)
    ensures r == n.(configurationChanging := r.configurationChanging, servers := r.servers,
                    peers := r.peers, sessions := r.sessions, catchingUp := r.catchingUp)
  {
    match entry.value
    case Application(_) =>
      if entry.clientId.Some?
      then n.(sessions := Put(n.sessions,
                              Lookup(n.sessions, entry.clientId.value).Commit(entry.messageId)))
      else n
    case Configuration(servers, _) => CommitConfiguration(n, servers)
  }

  //
  // Replication
  //

  /** The assertions of the original that guard an append request. */
  predicate AppendRequestAllowed(n: Node, request: AppendRequest) {
    request.serverId in n.servers ==>
      && !(n.role == Leader && request.term == n.term)
      && (request.term >= n.term && Fits(n.log, request) && request.transfer.None?
          && !n.transferring && request.entries != []
          ==> request.lastLogIndex + 1 >= n.log.start)
  }

  predicate Fits(log: Log, request: AppendRequest) {
    FitsAt(log, request.lastLogIndex, request.lastLogTerm)
  }

  /** The log has an entry of this term at this index, or the index is before any log. */
  predicate FitsAt(log: Log, index: nat, term: nat) {
    index == 0 || (index < log.End() && term == log.TermAt(index))
  }

  /** What a known server's request does to the role before its log is looked at. */
  function Acknowledge(n: Node, request: AppendRequest): (r: Node)
    ensures r == n.(term := r.term, votedFor := r.votedFor, role := r.role,
                    peers := r.peers, election := r.election)
  {
    var n1 := if request.term > n.term then BecomeFollower(UpdateTerm(n, request.term)) else n;
    if request.term != n1.term then n1
    else if n1.role == Candidate then BecomeFollower(n1)
    else DelayElection(n1)
  }

  predicate TransferRequired(log: Log, request: AppendRequest) {
    request.transfer.Some? && (request.transfer.value.Snapshot? || Fits(log, request))
  }

  /** The request's entries are merged into the log, and its sender is the leader. */
  function TakeEntries(n: Node, request: AppendRequest): (r: Node)
    requires request.entries != [] ==> n.log.start <= request.lastLogIndex + 1 <= n.log.End()
    ensures r == n.(log := r.log, leaderId := Some(request.serverId)) && r.log.start == n.log.start
  {
    n.(log := if request.entries == [] then n.log
              else n.log.Merge(request.lastLogIndex + 1, request.entries),
       leaderId := Some(request.serverId))
  }

  function HandleAppendRequest(n: Node, request: AppendRequest): (Node, AppendResponse)
    requires n.Retains() && AppendRequestAllowed(n, request)
  {
    if request.serverId !in n.servers then
      (n, AppendResponse(n.id, false, 0, 0, false))
    else
      Replicate(Acknowledge(n, request), request)
  }

  predicate Replicates(n: Node, request: AppendRequest) {
    && n.Retains()
    && (request.term >= n.term && Fits(n.log, request) && request.transfer.None?
        && !n.transferring && request.entries != []
        ==> request.lastLogIndex + 1 >= n.log.start)
  }

  /** What a request does once its term and its sender's role are acknowledged. */
  function Replicate(n: Node, request: AppendRequest): (Node, AppendResponse)
    requires Replicates(n, request)
  {
    var transfer := TransferRequired(n.log, request);
    var n1 := if transfer then n.(transferring := true) else n;
    if request.term < n1.term || !Fits(n1.log, request) || n1.transferring then
      (n1, AppendResponse(n.id, false, n1.term, n1.log.End(), transfer))
    else
      var n2 := Commit(TakeEntries(n1, request), request.commitIndex);
      (n2, AppendResponse(n.id, true, n2.term, request.lastLogIndex + |request.entries| + 1, false))
  }

  function Matched(peers: seq<Peer>): (r: seq<nat>)
    ensures |r| == |peers|
    ensures forall i :: 0 <= i < |r| ==> r[i] == peers[i].matched
  {
    if peers == [] then [] else [peers[0].matched] + Matched(peers[1..])
  }

  /** Inserts into a sequence sorted in descending order. */
  function Insert(x: nat, s: seq<nat>): seq<nat> {
    if s == [] || x >= s[0] then [x] + s else [s[0]] + Insert(x, s[1..])
  }

  function Descending(s: seq<nat>): (r: seq<nat>)
    ensures |r| == |s|
  {
    if s == [] then [] else InsertLength(s[0], Descending(s[1..])); Insert(s[0], Descending(s[1..]))
  }

  lemma InsertLength(x: nat, s: seq<nat>)
    ensures |Insert(x, s)| == |s| + 1
  {}

  /** The index that a leader commits: the middle one of those it and its peers reached. */
  function Median(reached: seq<nat>): nat
    requires reached != []
  {
    Descending(reached)[|reached| / 2]
  }

  function Reached(n: Node): seq<nat>
    requires n.log.End() >= 1
  {
    [n.log.End() - 1] + Matched(n.peers)
  }

  /** The state after an append response of the current term, and whether to send the peer more. */
  function HandleAppendResponse(n: Node, response: AppendResponse): (Node, bool)
    requires n.Retains()
    requires response.accepted ==> response.nextIndex >= 1
  {
    var i := PeerIndex(n.peers, response.serverId);
    if n.role != Leader || i == |n.peers| then (n, false)
    else if response.accepted then
      var peer := n.peers[i].(rewindStep := 1, nextIndex := response.nextIndex,
                              matched := response.nextIndex - 1);
      var n1 := n.(peers := n.peers[i := peer]);
      (Commit(n1, Median(Reached(n1))), response.nextIndex < n.log.End())
    else
      (n.(peers := n.peers[i := Rewind(n.peers[i], response)]), !response.transferRequired)
  }

  /** Where the leader looks for the peer's log next, after a rejection. */
  function Rewind(peer: Peer, response: AppendResponse): Peer {
    if response.transferRequired then peer.(rewindStep := 1, nextIndex := response.nextIndex)
    else RewoundTo(peer, response.nextIndex)
  }

  /** The same for a peer whose log ends before this index. */
  function RewoundTo(peer: Peer, end: nat): Peer {
    if end < peer.nextIndex then
      peer.(rewindStep := 1, nextIndex := end)
    else if peer.nextIndex > peer.rewindStep then
      peer.(rewindStep := peer.rewindStep * 2, nextIndex := peer.nextIndex - peer.rewindStep)
    else
      peer.(rewindStep := 1, nextIndex := 1)
  }

  /** The assertions of the original on building an append request. */
  predicate CanCreateAppendRequest(n: Node, peer: Peer) {
    && n.role == Leader
    && 1 <= peer.nextIndex <= n.log.End()
  }

  /**
   The request for a peer. `gap` and `batch` are the configured distance from which a peer needs a
   state transfer, and the largest number of entries to a request.
   */
  function CreateAppendRequest(n: Node, peer: Peer, gap: nat, batch: nat): (r: AppendRequest)
    requires CanCreateAppendRequest(n, peer) && n.log.start >= 1
    ensures r.transfer.None? ==> |r.entries| <= batch
  {
    var last := peer.nextIndex - 1;
    var lastTerm := n.log.TermAt(last);
    if TransferDue(n.log, last, gap) then
      AppendRequest(n.id, n.term, lastTerm, last, n.quickCommit,
                    [Entry(0, Application([]), None, 0)],
                    Some(if Unavailable(n.log, last) then Snapshot else LogTail))
    else
      AppendRequest(n.id, n.term, lastTerm, last, n.quickCommit, NextEntries(n.log, last, batch), None)
  }

  predicate Unavailable(log: Log, last: nat) {
    log.start > 1 && last < log.start
  }

  predicate TransferDue(log: Log, last: nat, gap: nat) {
    Unavailable(log, last) || log.End() - 1 - last >= gap
  }

  function NextEntries(log: Log, last: nat, batch: nat): (r: seq<Entry>)
    requires log.start <= last + 1 <= log.End()
    ensures |r| <= batch
  {
    log.Slice(last + 1, if log.End() < last + 1 + batch then log.End() else last + 1 + batch)
  }

  //
  // Client messages
  //

  /** Receives messages in turn; those the session expects are appended to the log. */
  function ReceiveMessages(n: Node, clientId: Id, messages: seq<Message>): Node
    decreases |messages|
  {
    if messages == [] then n
    else
      var session := Lookup(n.sessions, clientId);
      var n1 := n.(sessions := Put(n.sessions, session.Receive(messages[0].id)));
      var n2 := if session.Expects(messages[0].id)
                then n1.(log := n1.log.Append(
                           Entry(n.term, Application(messages[0].bytes), Some(clientId),
                                 messages[0].id)))
                else n1;
      ReceiveMessages(n2, clientId, messages[1..])
  }

  /** The state once a leader has received what a client publishes. */
  function Received(n: Node, request: PublishRequest): (r: Node)
    ensures r.log.start == n.log.start && |r.log.entries| >= |n.log.entries|
    ensures n.Retains() ==> r.Retains()
  {
    var n1 := n.(sessions := Ensure(n.sessions, request.clientId));
    ReceivedKeeps(n1, request.clientId, request.messages);
    ReceiveMessages(n1, request.clientId, request.messages)
  }

  /** Alone, a leader commits at once what it appended. */
  function CommitAlone(n: Node): Node
    requires n.Retains()
  {
    if n.peers == [] then Commit(n, n.log.End() - 1) else n
  }

  function PublishAnswer(n: Node, clientId: Id): PublishResponse {
    var session := Lookup(n.sessions, clientId);
    PublishResponse(n.id, true, n.leaderId, None, session.outOfOrder,
                    session.lastReceived, session.lastCommitted)
  }

  function HandlePublish(n: Node, request: PublishRequest): (Node, PublishResponse)
    requires n.Retains()
  {
    if n.role != Leader then
      (n, PublishResponse(n.id, false, n.leaderId, Some(n.servers), false, 0, 0))
    else
      var n1 := Received(n, request);
      (if |n1.log.entries| > |n.log.entries| then CommitAlone(n1) else n1,
       PublishAnswer(n1, request.clientId))
  }

  /** Receiving messages changes only the sessions and the end of the log. */
  lemma ReceivedKeeps(n: Node, clientId: Id, messages: seq<Message>)
    ensures var r := ReceiveMessages(n, clientId, messages);
      && r == n.(sessions := r.sessions, log := r.log)
      && r.log.start == n.log.start
      && n.log.entries <= r.log.entries
      && forall k :: |n.log.entries| <= k < |r.log.entries| ==>
           && r.log.entries[k].term == n.term
           && r.log.entries[k].value.Application?
           && r.log.entries[k].clientId == Some(clientId)
    decreases |messages|
  {
    if messages != [] {
      var session := Lookup(n.sessions, clientId);
      var n1 := n.(sessions := Put(n.sessions, session.Receive(messages[0].id)));
      if session.Expects(messages[0].id) {
        ReceivedKeeps(n1.(log := n1.log.Append(
                            Entry(n.term, Application(messages[0].bytes), Some(clientId),
                                  messages[0].id))), clientId, messages[1..]);
      } else {
        ReceivedKeeps(n1, clientId, messages[1..]);
      }
    }
  }

  //
  // The filter in front of every response of a peer
  //

  /** Whether a response of this term is handed on, once the server's own term is brought up. */
  function CheckTerm(n: Node, term: nat): (Node, bool) {
    if term > n.term then (BecomeFollower(UpdateTerm(n, term)), false) else (n, term == n.term)
  }

  function HandlePeerVoteResponse(n: Node, from: Id, response: VoteResponse): Effect
    requires n.Retains()
  {
    if PeerIndex(n.peers, from) == |n.peers| then Effect(n, None)
    else
      var (n1, pass) := CheckTerm(n, response.term);
      if pass then HandleVoteResponse(n1, response) else Effect(n1, None)
  }

  function HandlePeerAppendResponse(n: Node, from: Id, response: AppendResponse): (Node, bool)
    requires n.Retains()
    requires response.accepted ==> response.nextIndex >= 1
  {
    if PeerIndex(n.peers, from) == |n.peers| then (n, false)
    else
      var (n1, pass) := CheckTerm(n, response.term);
      if pass then HandleAppendResponse(n1, response) else (n1, false)
  }
}
