/**
 One client and one leader, with a network between them that loses, duplicates and reorders: every
 message enters the leader's log exactly once, in the order of publishing, and its publisher is called
 back once, after the leader has committed it.

 The leader keeps the client's session throughout, and its configuration. It serves other clients,
 appends entries of its own, and commits as far as it likes whenever it likes.
 */
module ExactlyOnce {
  import opened Types
  import opened Log
  import opened Sessions
  import opened SessionFacts
  import opened Handlers
  import opened NodeFacts
  import opened Clients

  //
  // A client's part of a log
  //

  function Part(entry: Entry, me: Id): seq<Message> {
    match entry.value
    case Application(bytes) => if entry.clientId == Some(me) then [Message(entry.messageId, bytes)] else []
    case Configuration(_, _) => []
  }

  /** The client's messages among the entries. */
  function OfClient(entries: seq<Entry>, me: Id): seq<Message> {
    if entries == [] then [] else Part(entries[0], me) + OfClient(entries[1..], me)
  }

  lemma {:induction false} OfClientConcat(a: seq<Entry>, b: seq<Entry>, me: Id)
    ensures OfClient(a + b, me) == OfClient(a, me) + OfClient(b, me)
  {
    if a == [] {
      assert a + b == b;
    } else {
      OfClientConcat(a[1..], b, me);
      Concat(Part(a[0], me), OfClient(a[1..], me), OfClient(b, me));
      assert (a + b)[1..] == a[1..] + b;
    }
  }

  lemma Concat<T>(a: seq<T>, b: seq<T>, c: seq<T>)
    ensures a + (b + c) == (a + b) + c
  {}

  lemma OfClientAppend(entries: seq<Entry>, e: Entry, me: Id)
    ensures OfClient(entries + [e], me) == OfClient(entries, me) + Part(e, me)
  {
    OfClientConcat(entries, [e], me);
    assert [e][1..] == [];
  }

  /** What was published, as messages. */
  function Messages(published: seq<Pending>): (r: seq<Message>)
    ensures |r| == |published| && forall i :: 0 <= i < |r| ==> r[i] == published[i].message
  {
    if published == [] then [] else [published[0].message] + Messages(published[1..])
  }

  predicate Numbered(messages: seq<Message>) {
    forall i :: 0 <= i < |messages| ==> messages[i].id == i + 1
  }

  //
  // The leader
  //

  predicate Leading(n: Node) {
    && n.role == Leader && n.Retains() && Fixed(n) && n.log.start == 1
    && n.commitIndex <= |n.log.entries|
  }

  function Committed(n: Node): seq<Entry>
    requires n.commitIndex <= |n.log.entries|
  {
    n.log.entries[..n.commitIndex]
  }

  /** The leader's log has the first messages of what the client published, as many as it received. */
  ghost predicate Receives(n: Node, me: Id, messages: seq<Message>) {
    var s := Lookup(n.sessions, me);
    && s.lastReceived <= |messages|
    && OfClient(n.log.entries, me) == messages[..s.lastReceived]
    && !s.outOfOrder
  }

  /** The session has the client's committed messages counted. */
  ghost predicate Counts(n: Node, me: Id)
    requires n.commitIndex <= |n.log.entries|
  {
    var s := Lookup(n.sessions, me);
    && s.lastCommitted == |OfClient(Committed(n), me)|
    && s.lastCommitted <= s.lastReceived
  }

  /** A message that is not ahead of what was received is appended, or was appended before. */
  lemma ReceiveOne(n: Node, me: Id, messages: seq<Message>, message: Message, rest: seq<Message>)
    returns (r: Node)
    requires Receives(n, me, messages) && Numbered(messages)
    requires 1 <= message.id <= |messages| && message == messages[message.id - 1]
    requires message.id <= Lookup(n.sessions, me).lastReceived + 1
    ensures Receives(r, me, messages)
    ensures Lookup(r.sessions, me)
      == Lookup(n.sessions, me).(lastReceived := Lookup(r.sessions, me).lastReceived)
    ensures Lookup(r.sessions, me).lastReceived
      == if message.id > Lookup(n.sessions, me).lastReceived then message.id
         else Lookup(n.sessions, me).lastReceived
    ensures r == n.(sessions := r.sessions, log := r.log)
    ensures ReceiveMessages(n, me, [message] + rest) == ReceiveMessages(r, me, rest)
  {
    var s := Lookup(n.sessions, me);
    LookupPut(n.sessions, s.Receive(message.id), me);
    var n1 := n.(sessions := Put(n.sessions, s.Receive(message.id)));
    if s.Expects(message.id) {
      var e := Entry(n.term, Application(message.bytes), Some(me), message.id);
      OfClientAppend(n.log.entries, e, me);
      r := n1.(log := n1.log.Append(e));
    } else {
      r := n1;
    }
    assert ([message] + rest)[1..] == rest;
  }

  /** The messages with the ids from `from` + 1 on. */
  predicate IsRun(run: seq<Message>, messages: seq<Message>, from: nat) {
    from + |run| <= |messages| && run == messages[from..from + |run|]
  }

  lemma RunTail(run: seq<Message>, messages: seq<Message>, from: nat)
    requires IsRun(run, messages, from) && run != []
    ensures run[0] == messages[from] && run == [run[0]] + run[1..]
    ensures IsRun(run[1..], messages, from + 1)
  {}

  /** A run of messages that is not ahead of what was received is received without a gap. */
  lemma {:induction false} ReceiveRun(n: Node, me: Id, messages: seq<Message>, from: nat, run: seq<Message>)
    requires Receives(n, me, messages) && Numbered(messages)
    requires IsRun(run, messages, from)
    requires from <= Lookup(n.sessions, me).lastReceived
    ensures var r := ReceiveMessages(n, me, run);
      && Receives(r, me, messages)
      && Lookup(r.sessions, me).lastCommitted == Lookup(n.sessions, me).lastCommitted
      && Lookup(r.sessions, me).lastReceived >= Lookup(n.sessions, me).lastReceived
    decreases |run|
  {
    if run != [] {
      RunTail(run, messages, from);
      var r := ReceiveOne(n, me, messages, run[0], run[1..]);
      ReceiveRun(r, me, messages, from + 1, run[1..]);
    }
  }

  /** What other clients send is no matter to this one. */
  lemma {:induction false} ReceiveOthers(n: Node, other: Id, run: seq<Message>, me: Id)
    requires other != me
    ensures var r := ReceiveMessages(n, other, run);
      && Lookup(r.sessions, me) == Lookup(n.sessions, me)
      && OfClient(r.log.entries, me) == OfClient(n.log.entries, me)
    decreases |run|
  {
    if run != [] {
      var s := Lookup(n.sessions, other);
      LookupPut(n.sessions, s.Receive(run[0].id), me);
      var n1 := n.(sessions := Put(n.sessions, s.Receive(run[0].id)));
      if s.Expects(run[0].id) {
        var e := Entry(n.term, Application(run[0].bytes), Some(other), run[0].id);
        OfClientAppend(n.log.entries, e, me);
        ReceiveOthers(n1.(log := n1.log.Append(e)), other, run[1..], me);
      } else {
        ReceiveOthers(n1, other, run[1..], me);
      }
    }
  }

  //
  // The leader commits
  //

  lemma CommittedNext(n: Node, me: Id)
    requires n.log.start == 1 && n.commitIndex < |n.log.entries|
    ensures var e := n.log.entries[n.commitIndex];
      OfClient(n.log.entries[..n.commitIndex + 1], me) == OfClient(Committed(n), me) + Part(e, me)
  {
    OfClientAppend(Committed(n), n.log.entries[n.commitIndex], me);
    assert n.log.entries[..n.commitIndex + 1] == Committed(n) + [n.log.entries[n.commitIndex]];
  }

  /** The client's messages in a part of the log are the first of those in all of it. */
  lemma OfClientPrefix(entries: seq<Entry>, k: nat, me: Id)
    requires k <= |entries|
    ensures OfClient(entries[..k], me) <= OfClient(entries, me)
  {
    OfClientConcat(entries[..k], entries[k..], me);
    assert entries == entries[..k] + entries[k..];
  }

  /** The client's entry that is committed next has the next id. */
  lemma NextOwnEntry(n: Node, me: Id, messages: seq<Message>)
    requires n.log.start == 1 && n.commitIndex < |n.log.entries|
    requires Receives(n, me, messages) && Counts(n, me) && Numbered(messages)
    requires Part(n.log.entries[n.commitIndex], me) != []
    ensures var s := Lookup(n.sessions, me);
      && n.log.entries[n.commitIndex].messageId == s.lastCommitted + 1 <= s.lastReceived
  {
    CommittedNext(n, me);
    OfClientPrefix(n.log.entries, n.commitIndex + 1, me);
    var mine := OfClient(n.log.entries[..n.commitIndex + 1], me);
    assert mine[|mine| - 1] == Part(n.log.entries[n.commitIndex], me)[0];
    assert mine[|mine| - 1] == messages[|mine| - 1];
  }

  /** Committing an entry touches the client's session only if the entry is its own. */
  lemma CommitNextSession(n: Node, me: Id)
    requires Leading(n) && CommitDue(n)
    ensures var r, e := CommitNext(n), n.log.entries[n.commitIndex];
      && Leading(r) && r.log == n.log && r.commitIndex == n.commitIndex + 1
      && Lookup(r.sessions, me)
         == if Part(e, me) != [] then Lookup(n.sessions, me).Commit(e.messageId) else Lookup(n.sessions, me)
  {
    var e := n.log.entries[n.commitIndex];
    assert n.log.At(n.commitIndex + 1) == e;
    ApplySession(n, e, me);
    assert CommitNext(n).sessions == Apply(n, e).sessions;
  }

  lemma ApplySession(n: Node, e: Entry, me: Id)
    requires Fixed(n) && (e.value.Configuration? ==> e.value.servers == n.servers)
    ensures Apply(n, e) == n.(sessions := Apply(n, e).sessions,
                              configurationChanging := Apply(n, e).configurationChanging)
    ensures Lookup(Apply(n, e).sessions, me)
      == if Part(e, me) != [] then Lookup(n.sessions, me).Commit(e.messageId) else Lookup(n.sessions, me)
  {
    ReconfigureSame(n);
    if e.value.Application? && e.clientId.Some? {
      LookupPut(n.sessions, Lookup(n.sessions, e.clientId.value).Commit(e.messageId), me);
    }
  }

  lemma CommitNextCounts(n: Node, me: Id, messages: seq<Message>)
    requires Leading(n) && CommitDue(n) && Receives(n, me, messages) && Counts(n, me) && Numbered(messages)
    ensures Advances(n, CommitNext(n), me, messages)
  {
    var e, r := n.log.entries[n.commitIndex], CommitNext(n);
    CommitNextSession(n, me);
    CommittedNext(n, me);
    if Part(e, me) != [] {
      NextOwnEntry(n, me, messages);
    }
    assert Committed(r) == n.log.entries[..n.commitIndex + 1];
  }

  /** The leader after something that only commits, as far as the client can tell. */
  ghost predicate Advances(n: Node, r: Node, me: Id, messages: seq<Message>) {
    && Leading(r) && r.log == n.log && Receives(r, me, messages) && Counts(r, me)
    && Lookup(r.sessions, me).lastReceived == Lookup(n.sessions, me).lastReceived
    && Lookup(r.sessions, me).lastCommitted >= Lookup(n.sessions, me).lastCommitted
  }

  lemma {:induction false} CommitEntriesCounts(n: Node, me: Id, messages: seq<Message>)
    requires Leading(n) && Receives(n, me, messages) && Counts(n, me) && Numbered(messages)
    ensures Advances(n, CommitEntries(n), me, messages)
    decreases n.quickCommit - n.commitIndex
  {
    if CommitDue(n) {
      CommitNextCounts(n, me, messages);
      CommitEntriesCounts(CommitNext(n), me, messages);
    }
  }

  lemma CommitCounts(n: Node, index: nat, me: Id, messages: seq<Message>)
    requires Leading(n) && Receives(n, me, messages) && Counts(n, me) && Numbered(messages)
    ensures Advances(n, Commit(n, index), me, messages)
  {
    var n1 := if index > n.quickCommit then n.(quickCommit := index) else n;
    CommitEntriesCounts(n1, me, messages);
    LookupClear(CommitEntries(n1).sessions, me);
  }

  /** A commit marks the sessions of just those clients whose entries it commits. */
  lemma {:induction false} MarksExactly(n: Node, me: Id)
    requires Leading(n)
    ensures MarkedBy(n, CommitEntries(n), me)
    decreases n.quickCommit - n.commitIndex
  {
    if CommitDue(n) {
      var m, r := CommitNext(n), CommitEntries(n);
      CommitNextSession(n, me);
      MarksExactly(m, me);
      MarkedByNext(n, m, r, me);
    }
  }

  /** The client's session is marked if it was, or if an entry of the client has been committed since. */
  predicate MarkedBy(n: Node, r: Node, me: Id) {
    && n.commitIndex <= r.commitIndex <= |n.log.entries|
    && (Lookup(r.sessions, me).committed <==>
          || Lookup(n.sessions, me).committed
          || OfClient(n.log.entries[n.commitIndex..r.commitIndex], me) != [])
  }

  lemma MarkedByNext(n: Node, m: Node, r: Node, me: Id)
    requires n.commitIndex < r.commitIndex && m.log == n.log && m.commitIndex == n.commitIndex + 1
    requires MarkedBy(m, r, me)
    requires Lookup(m.sessions, me).committed
      == (Lookup(n.sessions, me).committed || Part(n.log.entries[n.commitIndex], me) != [])
    ensures MarkedBy(n, r, me)
  {
    OwnAmong(n.log.entries, n.commitIndex, r.commitIndex, me);
  }

  lemma OwnAmong(entries: seq<Entry>, from: nat, to: nat, me: Id)
    requires from < to <= |entries|
    ensures OfClient(entries[from..to], me) != []
      <==> Part(entries[from], me) != [] || OfClient(entries[from + 1..to], me) != []
  {
    OfClientFrom(entries, from, to, me);
  }

  lemma OfClientFrom(entries: seq<Entry>, from: nat, to: nat, me: Id)
    requires from < to <= |entries|
    ensures OfClient(entries[from..to], me) == Part(entries[from], me) + OfClient(entries[from + 1..to], me)
  {
    assert entries[from..to][0] == entries[from] && entries[from..to][1..] == entries[from + 1..to];
  }

  //
  // The leader receives
  //

  /** A longer log commits nothing by itself. */
  lemma LongerLog(n: Node, r: Node, me: Id)
    requires Leading(n) && r == n.(sessions := r.sessions, log := r.log)
    requires r.log.start == n.log.start && n.log.entries <= r.log.entries
    requires forall k :: |n.log.entries| <= k < |r.log.entries| ==>
      r.log.entries[k].value.Configuration? ==> r.log.entries[k].value.servers == n.servers
    ensures Leading(r) && Committed(r) == Committed(n)
  {}

  lemma ReceivedLeads(n: Node, request: PublishRequest, me: Id)
    requires Leading(n)
    ensures Leading(Received(n, request)) && Committed(Received(n, request)) == Committed(n)
  {
    var n1 := n.(sessions := Ensure(n.sessions, request.clientId));
    ReceivedKeeps(n1, request.clientId, request.messages);
    LongerLog(n, Received(n, request), me);
  }

  /** What the client can tell of the leader. */
  ghost predicate Serves(n: Node, me: Id, messages: seq<Message>) {
    Leading(n) && Receives(n, me, messages) && Counts(n, me)
  }

  ghost predicate Later(n: Node, r: Node, me: Id) {
    && r.id == n.id
    && Lookup(r.sessions, me).lastReceived >= Lookup(n.sessions, me).lastReceived
    && Lookup(r.sessions, me).lastCommitted >= Lookup(n.sessions, me).lastCommitted
  }

  lemma CommitAloneServes(n: Node, me: Id, messages: seq<Message>)
    requires Serves(n, me, messages) && Numbered(messages)
    ensures Serves(CommitAlone(n), me, messages) && Later(n, CommitAlone(n), me)
  {
    if n.peers == [] {
      CommitServes(n, n.log.End() - 1, me, messages);
    }
  }

  lemma CommitServes(n: Node, index: nat, me: Id, messages: seq<Message>)
    requires Serves(n, me, messages) && Numbered(messages)
    ensures Serves(Commit(n, index), me, messages) && Later(n, Commit(n, index), me)
  {
    CommitCounts(n, index, me, messages);
    CommitFixed(n, index);
    AdvancesServes(n, Commit(n, index), me, messages);
  }

  lemma AdvancesServes(n: Node, r: Node, me: Id, messages: seq<Message>)
    requires Advances(n, r, me, messages) && r.id == n.id
    ensures Serves(r, me, messages) && Later(n, r, me)
  {}

  lemma ReceivedServes(n: Node, me: Id, messages: seq<Message>, from: nat, run: seq<Message>)
    requires Serves(n, me, messages) && Numbered(messages)
    requires IsRun(run, messages, from) && from <= Lookup(n.sessions, me).lastReceived
    ensures var r := Received(n, PublishRequest(me, run));
      Serves(r, me, messages) && Later(n, r, me)
      && Lookup(r.sessions, me).lastCommitted == Lookup(n.sessions, me).lastCommitted
  {
    var n1 := n.(sessions := Ensure(n.sessions, me));
    LookupEnsure(n.sessions, me, me);
    ReceiveRun(n1, me, messages, from, run);
    ReceivedLeads(n, PublishRequest(me, run), me);
    ReceivedKeeps(n1, me, run);
  }

  /** The client's request, no matter how late or how often it arrives. */
  lemma OwnRequest(n: Node, me: Id, messages: seq<Message>, from: nat, run: seq<Message>)
    requires Serves(n, me, messages) && Numbered(messages)
    requires IsRun(run, messages, from) && from <= Lookup(n.sessions, me).lastReceived
    ensures var (r, response) := HandlePublish(n, PublishRequest(me, run));
      && Serves(r, me, messages) && Later(n, r, me)
      && response.accepted && !response.outOfOrder
      && response.lastCommitted <= Lookup(r.sessions, me).lastCommitted
  {
    var n1 := Received(n, PublishRequest(me, run));
    ReceivedServes(n, me, messages, from, run);
    CommitAloneServes(n1, me, messages);
  }

  lemma OthersServe(n: Node, request: PublishRequest, me: Id, messages: seq<Message>)
    requires Serves(n, me, messages) && request.clientId != me
    ensures var r := Received(n, request); Serves(r, me, messages) && Later(n, r, me)
  {
    var n1 := n.(sessions := Ensure(n.sessions, request.clientId));
    LookupEnsure(n.sessions, request.clientId, me);
    ReceiveOthers(n1, request.clientId, request.messages, me);
    ReceivedLeads(n, request, me);
    ReceivedKeeps(n1, request.clientId, request.messages);
  }

  /** Another client's request. */
  lemma OthersRequest(n: Node, request: PublishRequest, me: Id, messages: seq<Message>)
    requires Serves(n, me, messages) && Numbered(messages) && request.clientId != me
    ensures var r := HandlePublish(n, request).0; Serves(r, me, messages) && Later(n, r, me)
  {
    OthersServe(n, request, me, messages);
    CommitAloneServes(Received(n, request), me, messages);
  }

  //
  // The client and the leader together
  //

  datatype System = System(
    client: Client,
    leader: Node,
    requests: set<seq<Message>>,
    responses: set<PublishResponse>,
    published: seq<Pending>)

  datatype Step =
    | Publishes(bytes: seq<bv8>, userData: nat)
    | Sends(maxBatch: nat)
    | SendsHeartbeat
    | Connects(leader: Id)
    | Disconnects
    | Requested(messages: seq<Message>)
    | Answered(response: PublishResponse)
    | OtherRequested(request: PublishRequest)
    | LeaderAppends(entry: Entry)
    | LeaderCommits(index: nat)
    | LeaderLocks(locked: bool)

  predicate Possible(y: System, me: Id, step: Step) {
    match step
    case Sends(_) => y.client.lastSent >= y.client.lastCommitted
    case Requested(messages) => messages in y.requests && y.leader.Retains()
    case Answered(response) => response in y.responses && CanHear(y.client, response)
    case OtherRequested(request) => request.clientId != me && y.leader.Retains()
    case LeaderAppends(entry) =>
      entry.clientId.None? && (entry.value.Configuration? ==> entry.value.servers == y.leader.servers)
    case LeaderCommits(_) => y.leader.Retains()
    case _ => true
  }

  /** Requests and responses stay in the network, which may deliver them at any time, or never. */
  function After(y: System, me: Id, step: Step): System
    requires Possible(y, me, step)
  {
    match step
    case Publishes(bytes, userData) =>
      y.(client := Publish(y.client, bytes, userData),
         published := y.published + [Pending(Message(y.client.nextId, bytes), userData)])
    case Sends(maxBatch) =>
      var (c, messages) := Process(y.client, maxBatch);
      y.(client := c, requests := y.requests + if messages == [] then {} else {messages})
    case SendsHeartbeat => y.(requests := y.requests + {[]})
    case Connects(leader) => y.(client := Connect(y.client, leader))
    case Disconnects => y.(client := Disconnect(y.client))
    case Requested(messages) =>
      var (n, response) := HandlePublish(y.leader, PublishRequest(me, messages));
      y.(leader := n, responses := y.responses + {response})
    case Answered(response) => y.(client := HandleResponse(y.client, response))
    case OtherRequested(request) => y.(leader := HandlePublish(y.leader, request).0)
    case LeaderAppends(entry) => y.(leader := y.leader.(log := y.leader.log.Append(entry)))
    case LeaderCommits(index) => y.(leader := Commit(y.leader, index))
    case LeaderLocks(locked) => y.(leader := y.leader.(commitsLocked := locked))
  }

  //
  // The invariant
  //

  ghost predicate ClientOk(c: Client, published: seq<Pending>) {
    && c.nextId == |published| + 1
    && c.lastSent == c.lastCommitted <= |published|
    && c.queue == published[c.lastCommitted..]
    && c.calls == Waiting(published[..c.lastCommitted])
    && Numbered(Messages(published))
  }

  ghost predicate RequestOk(run: seq<Message>, messages: seq<Message>, received: nat) {
    exists from: nat {:trigger IsRun(run, messages, from)} :: from <= received && IsRun(run, messages, from)
  }

  predicate ResponseOk(response: PublishResponse, committed: nat) {
    response.accepted && !response.outOfOrder && response.lastCommitted <= committed
  }

  ghost predicate SystemInv(y: System, me: Id) {
    var s := Lookup(y.leader.sessions, me);
    && ClientOk(y.client, y.published)
    && Serves(y.leader, me, Messages(y.published))
    && y.client.lastCommitted <= s.lastCommitted
    && (forall r {:trigger r in y.requests} :: r in y.requests ==> RequestOk(r, Messages(y.published), s.lastReceived))
    && (forall r {:trigger ResponseOk(r, s.lastCommitted)} :: r in y.responses ==> ResponseOk(r, s.lastCommitted))
  }

  //
  // Steps of the client
  //

  lemma PublishKeepsClient(c: Client, published: seq<Pending>, bytes: seq<bv8>, userData: nat)
    requires ClientOk(c, published)
    ensures ClientOk(Publish(c, bytes, userData), published + [Pending(Message(c.nextId, bytes), userData)])
    ensures Messages(published) <= Messages(published + [Pending(Message(c.nextId, bytes), userData)])
  {
    var p := Pending(Message(c.nextId, bytes), userData);
    assert (published + [p])[c.lastCommitted..] == published[c.lastCommitted..] + [p];
    assert (published + [p])[..c.lastCommitted] == published[..c.lastCommitted];
  }

  lemma ClientHasWindow(c: Client, published: seq<Pending>)
    requires ClientOk(c, published)
    ensures Window(c)
  {
    forall i | 0 <= i < |c.queue| ensures c.queue[i].message.id == c.lastCommitted + 1 + i {
      assert c.queue[i] == published[c.lastCommitted + i];
      assert Messages(published)[c.lastCommitted + i].id == c.lastCommitted + i + 1;
    }
  }

  /** What the client sends is a run that starts right after what it knows to be committed. */
  lemma SentIsRun(c: Client, published: seq<Pending>, maxBatch: nat)
    requires ClientOk(c, published)
    ensures c.lastSent >= c.lastCommitted
    ensures IsRun(NextMessages(c, maxBatch), Messages(published), c.lastCommitted)
  {
    BatchIsLongest(c.queue, maxBatch);
    assert c.queue[0..] == c.queue;
    BatchIsRun(c.queue, published, c.lastCommitted, Batch(c.queue, maxBatch));
  }

  lemma BatchIsRun(queue: seq<Pending>, published: seq<Pending>, from: nat, batch: seq<Message>)
    requires from <= |published| && queue == published[from..] && |batch| <= |queue|
    requires forall i :: 0 <= i < |batch| ==> batch[i] == queue[i].message
    ensures IsRun(batch, Messages(published), from)
  {
    var messages := Messages(published);
    assert from + |batch| <= |messages|;
    forall i | 0 <= i < |batch| ensures batch[i] == messages[from + i] {
      assert queue[i] == published[from + i];
    }
    SliceIs(batch, messages, from);
  }

  lemma SliceIs(batch: seq<Message>, messages: seq<Message>, from: nat)
    requires from + |batch| <= |messages| && forall i :: 0 <= i < |batch| ==> batch[i] == messages[from + i]
    ensures batch == messages[from..from + |batch|]
  {}

  /** A response with a committed id at most that of the leader's session. */
  lemma ResponseKeepsClient(c: Client, published: seq<Pending>, response: PublishResponse, committed: nat)
    requires ClientOk(c, published) && ResponseOk(response, committed)
    requires c.lastCommitted <= committed <= |published|
    ensures CanAccept(c, response)
    ensures ClientOk(HandleResponse(c, response), published)
    ensures c.lastCommitted <= HandleResponse(c, response).lastCommitted <= committed
  {
    var c1 := c.(inProgress := false);
    assert ClientOk(c1, published);
    if response.lastCommitted != 0 {
      RemovingKeepsClient(c1, published, response.lastCommitted);
    }
  }

  lemma RemovingKeepsClient(c: Client, published: seq<Pending>, committed: nat)
    requires ClientOk(c, published)
    ensures var r := RemoveCommitted(c, committed);
      && ClientOk(r, published) && c.lastCommitted <= r.lastCommitted
      && (r.lastCommitted <= c.lastCommitted || r.lastCommitted <= committed)
  {
    RemovedWithin(c, published, committed);
    RemovingKeepsCalls(c, published, committed);
    RemovedIsOk(c, published, committed, RemoveCommitted(c, committed));
  }

  lemma RemovedWithin(c: Client, published: seq<Pending>, committed: nat)
    requires ClientOk(c, published)
    ensures var r := RemoveCommitted(c, committed);
      Window(c) && Removed(c, committed, r) && r.lastCommitted <= |published|
  {
    ClientHasWindow(c, published);
    RemovingKeepsWindow(c, committed);
  }

  lemma RemovedIsOk(c: Client, published: seq<Pending>, committed: nat, r: Client)
    requires ClientOk(c, published) && Removed(c, committed, r)
    requires r.lastCommitted <= |published| && r.calls == Waiting(published[..r.lastCommitted])
    ensures ClientOk(r, published) && c.lastCommitted <= r.lastCommitted
    ensures r.lastCommitted <= c.lastCommitted || r.lastCommitted <= committed
  {
    QueueIs(c, published, r.lastCommitted, r.queue);
  }

  lemma RemovingKeepsCalls(c: Client, published: seq<Pending>, committed: nat)
    requires Window(c) && c.lastCommitted <= |published| && c.queue == published[c.lastCommitted..]
    requires c.calls == Waiting(published[..c.lastCommitted])
    requires RemoveCommitted(c, committed).lastCommitted <= |published|
    ensures RemoveCommitted(c, committed).calls
      == Waiting(published[..RemoveCommitted(c, committed).lastCommitted])
  {
    RemovingKeepsHistory(c, committed);
    HistoryIs(c, published);
    var r := RemoveCommitted(c, committed);
    CallsAre(r, published, r.lastCommitted);
  }

  lemma QueueIs(c: Client, published: seq<Pending>, k: nat, queue: seq<Pending>)
    requires c.lastCommitted <= k <= |published| && c.queue == published[c.lastCommitted..]
    requires queue == c.queue[k - c.lastCommitted..]
    ensures queue == published[k..]
  {}

  lemma HistoryIs(c: Client, published: seq<Pending>)
    requires c.lastCommitted <= |published| && c.queue == published[c.lastCommitted..]
    requires c.calls == Waiting(published[..c.lastCommitted])
    ensures History(c) == Waiting(published)
  {}

  lemma CallsAre(c: Client, published: seq<Pending>, k: nat)
    requires History(c) == Waiting(published) && |c.calls| == k <= |published|
    ensures c.calls == Waiting(published[..k])
  {
    assert c.calls == Waiting(published)[..k];
  }

  //
  // Every step
  //

  lemma RequestsStayOk(
    requests: set<seq<Message>>, before: seq<Message>, after: seq<Message>, received: nat, received': nat)
    requires forall r {:trigger r in requests} :: r in requests ==> RequestOk(r, before, received)
    requires before <= after && received <= received'
    ensures forall r {:trigger r in requests} :: r in requests ==> RequestOk(r, after, received')
  {
    forall r | r in requests ensures RequestOk(r, after, received') {
      var from: nat :| from <= received && IsRun(r, before, from);
      assert IsRun(r, after, from);
    }
  }

  lemma ServesMore(n: Node, me: Id, before: seq<Message>, after: seq<Message>)
    requires Serves(n, me, before) && before <= after
    ensures Serves(n, me, after)
  {}

  lemma LeaderStep(y: System, y': System, me: Id)
    requires SystemInv(y, me)
    requires y'.client == y.client && y'.published == y.published && y'.requests == y.requests
    requires Serves(y'.leader, me, Messages(y.published)) && Later(y.leader, y'.leader, me)
    requires forall r :: r in y'.responses && r !in y.responses ==>
      ResponseOk(r, Lookup(y'.leader.sessions, me).lastCommitted)
    ensures SystemInv(y', me)
  {
    var s, s' := Lookup(y.leader.sessions, me), Lookup(y'.leader.sessions, me);
    RequestsStayOk(y.requests, Messages(y.published), Messages(y.published), s.lastReceived, s'.lastReceived);
    forall r | r in y'.responses ensures ResponseOk(r, s'.lastCommitted) {
      if r in y.responses {
        assert ResponseOk(r, s.lastCommitted);
      }
    }
  }

  lemma PublishStep(y: System, me: Id, bytes: seq<bv8>, userData: nat)
    requires SystemInv(y, me)
    ensures SystemInv(After(y, me, Publishes(bytes, userData)), me)
  {
    var y' := After(y, me, Publishes(bytes, userData));
    var received := Lookup(y.leader.sessions, me).lastReceived;
    PublishKeepsClient(y.client, y.published, bytes, userData);
    ServesMore(y.leader, me, Messages(y.published), Messages(y'.published));
    RequestsStayOk(y.requests, Messages(y.published), Messages(y'.published), received, received);
  }

  lemma SendStep(y: System, me: Id, maxBatch: nat)
    requires SystemInv(y, me) && Possible(y, me, Sends(maxBatch))
    ensures SystemInv(After(y, me, Sends(maxBatch)), me)
  {
    SentIsRun(y.client, y.published, maxBatch);
    var (c, messages) := Process(y.client, maxBatch);
    var received := Lookup(y.leader.sessions, me).lastReceived;
    if messages != [] {
      assert IsRun(messages, Messages(y.published), y.client.lastCommitted);
      assert RequestOk(messages, Messages(y.published), received);
    }
  }

  lemma RequestStep(y: System, me: Id, messages: seq<Message>)
    requires SystemInv(y, me) && Possible(y, me, Requested(messages))
    ensures SystemInv(After(y, me, Requested(messages)), me)
  {
    var s := Lookup(y.leader.sessions, me);
    assert RequestOk(messages, Messages(y.published), s.lastReceived);
    var from: nat :| from <= s.lastReceived && IsRun(messages, Messages(y.published), from);
    OwnRequest(y.leader, me, Messages(y.published), from, messages);
    LeaderStep(y, After(y, me, Requested(messages)), me);
  }

  lemma AnswerStep(y: System, me: Id, response: PublishResponse)
    requires SystemInv(y, me) && response in y.responses
    ensures CanAccept(y.client, response)
    ensures SystemInv(After(y, me, Answered(response)), me)
  {
    AnswerKeepsClient(y, me, response);
    ClientStep(y, HandleResponse(y.client, response), me);
  }

  lemma AnswerKeepsClient(y: System, me: Id, response: PublishResponse)
    requires SystemInv(y, me) && response in y.responses
    ensures CanAccept(y.client, response)
    ensures var c := HandleResponse(y.client, response);
      ClientOk(c, y.published) && c.lastCommitted <= Lookup(y.leader.sessions, me).lastCommitted
  {
    var s := Lookup(y.leader.sessions, me);
    assert ResponseOk(response, s.lastCommitted);
    ResponseKeepsClient(y.client, y.published, response, s.lastCommitted);
  }

  lemma ClientStep(y: System, c: Client, me: Id)
    requires SystemInv(y, me) && ClientOk(c, y.published)
    requires c.lastCommitted <= Lookup(y.leader.sessions, me).lastCommitted
    ensures SystemInv(y.(client := c), me)
  {}

  /**
   The answer to a request tells the client all that the leader had committed for it when it got the
   request: everything up to there is called back.
   */
  lemma AnswerTellsCommitted(y: System, me: Id, messages: seq<Message>)
    requires SystemInv(y, me) && messages in y.requests && y.client.leaderId == Some(y.leader.id)
    requires y.leader.role == Leader
    ensures var response := HandlePublish(y.leader, PublishRequest(me, messages)).1;
      && CanHear(y.client, response)
      && HandleResponse(y.client, response).lastCommitted == Lookup(y.leader.sessions, me).lastCommitted
  {
    var committed := Lookup(y.leader.sessions, me).lastCommitted;
    var response := HandlePublish(y.leader, PublishRequest(me, messages)).1;
    assert RequestOk(messages, Messages(y.published), Lookup(y.leader.sessions, me).lastReceived);
    AnswerSays(y.leader, me, Messages(y.published), messages);
    AnsweredCommitted(y.client, y.published, response, committed);
  }

  /** What a leader tells a client is what its session has committed, in order so far. */
  lemma AnswerSays(n: Node, me: Id, messages: seq<Message>, run: seq<Message>)
    requires Serves(n, me, messages) && Numbered(messages) && n.role == Leader
    requires RequestOk(run, messages, Lookup(n.sessions, me).lastReceived)
    ensures var response := HandlePublish(n, PublishRequest(me, run)).1;
      && response.accepted && !response.outOfOrder && response.serverId == n.id
      && response.lastCommitted == Lookup(n.sessions, me).lastCommitted <= |messages|
  {
    var from: nat :| from <= Lookup(n.sessions, me).lastReceived && IsRun(run, messages, from);
    OwnRequest(n, me, messages, from, run);
    ReceivedServes(n, me, messages, from, run);
    ReceivedKeeps(n.(sessions := Ensure(n.sessions, me)), me, run);
  }

  lemma AnsweredCommitted(c: Client, published: seq<Pending>, response: PublishResponse, committed: nat)
    requires ClientOk(c, published) && response.accepted && !response.outOfOrder
    requires c.leaderId == Some(response.serverId)
    requires response.lastCommitted == committed && c.lastCommitted <= committed <= |published|
    ensures CanHear(c, response) && HandleResponse(c, response).lastCommitted == committed
  {
    RemovesTo(c.(inProgress := false), published, committed);
  }

  lemma RemovesTo(c: Client, published: seq<Pending>, committed: nat)
    requires ClientOk(c, published) && c.lastCommitted <= committed <= |published|
    ensures RemoveCommitted(c, committed).lastCommitted == committed
  {
    ClientHasWindow(c, published);
    RemovingKeepsWindow(c, committed);
  }

  lemma AppendStep(y: System, me: Id, entry: Entry)
    requires SystemInv(y, me) && Possible(y, me, LeaderAppends(entry))
    ensures SystemInv(After(y, me, LeaderAppends(entry)), me)
  {
    var n := y.leader.(log := y.leader.log.Append(entry));
    LongerLog(y.leader, n, me);
    OfClientAppend(y.leader.log.entries, entry, me);
    LeaderStep(y, After(y, me, LeaderAppends(entry)), me);
  }

  lemma CommitStep(y: System, me: Id, index: nat)
    requires SystemInv(y, me) && Possible(y, me, LeaderCommits(index))
    ensures SystemInv(After(y, me, LeaderCommits(index)), me)
  {
    CommitServes(y.leader, index, me, Messages(y.published));
    LeaderStep(y, After(y, me, LeaderCommits(index)), me);
  }

  lemma AnsweredStep(y: System, me: Id, response: PublishResponse)
    requires SystemInv(y, me) && Possible(y, me, Answered(response))
    ensures SystemInv(After(y, me, Answered(response)), me)
    ensures y.client.calls <= After(y, me, Answered(response)).client.calls
  {
    AnswerStep(y, me, response);
    ClientHasWindow(y.client, y.published);
    ResponseKeepsWindow(y.client, response);
  }

  lemma OtherStep(y: System, me: Id, request: PublishRequest)
    requires SystemInv(y, me) && Possible(y, me, OtherRequested(request))
    ensures SystemInv(After(y, me, OtherRequested(request)), me)
    ensures After(y, me, OtherRequested(request)).client == y.client
  {
    OthersRequest(y.leader, request, me, Messages(y.published));
    LeaderStep(y, After(y, me, OtherRequested(request)), me);
  }

  lemma EveryStep(y: System, me: Id, step: Step)
    requires SystemInv(y, me) && Possible(y, me, step)
    ensures SystemInv(After(y, me, step), me)
    ensures y.client.calls <= After(y, me, step).client.calls
  {
    match step
    case Publishes(bytes, userData) => PublishStep(y, me, bytes, userData);
    case Sends(maxBatch) => SendStep(y, me, maxBatch);
    case SendsHeartbeat =>
      assert IsRun([], Messages(y.published), 0);
    case Connects(leader) =>
    case Disconnects =>
    case Requested(messages) => RequestStep(y, me, messages);
    case Answered(response) => AnsweredStep(y, me, response);
    case OtherRequested(request) => OtherStep(y, me, request);
    case LeaderAppends(entry) => AppendStep(y, me, entry);
    case LeaderCommits(index) => CommitStep(y, me, index);
    case LeaderLocks(locked) => LeaderStep(y, After(y, me, step), me);
  }

  //
  // Every run
  //

  /** A client that starts, and a leader that has not heard of it. */
  ghost predicate Start(y: System, me: Id) {
    && y.client == NewClient() && y.published == [] && y.requests == {} && y.responses == {}
    && Leading(y.leader)
    && Lookup(y.leader.sessions, me) == NewSession(me)
    && OfClient(y.leader.log.entries, me) == []
  }

  lemma StartInv(y: System, me: Id)
    requires Start(y, me)
    ensures SystemInv(y, me)
  {
    OfClientPrefix(y.leader.log.entries, y.leader.commitIndex, me);
  }

  predicate StepAt(ys: seq<System>, steps: seq<Step>, me: Id, k: nat)
    requires |ys| == |steps| + 1 && k < |steps|
  {
    Possible(ys[k], me, steps[k]) && ys[k + 1] == After(ys[k], me, steps[k])
  }

  ghost predicate Run(ys: seq<System>, steps: seq<Step>, me: Id) {
    && |ys| == |steps| + 1 && Start(ys[0], me)
    && forall k: nat {:trigger StepAt(ys, steps, me, k)} :: k < |steps| ==> StepAt(ys, steps, me, k)
  }

  lemma {:induction false} RunInv(ys: seq<System>, steps: seq<Step>, me: Id, k: nat)
    requires Run(ys, steps, me) && k < |ys|
    ensures SystemInv(ys[k], me)
    decreases k, 0
  {
    if k == 0 {
      StartInv(ys[0], me);
    } else {
      RunNext(ys, steps, me, k - 1);
    }
  }

  lemma {:induction false} RunNext(ys: seq<System>, steps: seq<Step>, me: Id, k: nat)
    requires Run(ys, steps, me) && k < |steps|
    ensures SystemInv(ys[k + 1], me) && ys[k].client.calls <= ys[k + 1].client.calls
    decreases k, 1
  {
    RunInv(ys, steps, me, k);
    assert StepAt(ys, steps, me, k);
    EveryStep(ys[k], me, steps[k]);
  }

  /**
   In any run: the client's messages in the leader's log are the first of those published, in order and
   each once; the leader never sees one ahead of its turn; the publisher of each message up to some id
   has been called back, once and in order, and those messages the leader has committed; and the client
   never fails its assertion on a response.
   */
  lemma DeliveredExactlyOnce(ys: seq<System>, steps: seq<Step>, me: Id, k: nat)
    requires Run(ys, steps, me) && k < |ys|
    ensures var y := ys[k];
      && OfClient(y.leader.log.entries, me) <= Messages(y.published)
      && !Lookup(y.leader.sessions, me).outOfOrder
      && y.client.lastCommitted <= |y.published|
      && y.client.calls == Waiting(y.published[..y.client.lastCommitted])
      && y.leader.commitIndex <= |y.leader.log.entries|
      && Messages(y.published[..y.client.lastCommitted]) <= OfClient(Committed(y.leader), me)
      && forall r :: r in y.responses ==> CanAccept(y.client, r)
  {
    RunInv(ys, steps, me, k);
    var y := ys[k];
    var s := Lookup(y.leader.sessions, me);
    OfClientPrefix(y.leader.log.entries, y.leader.commitIndex, me);
    assert Messages(y.published[..y.client.lastCommitted]) == Messages(y.published)[..y.client.lastCommitted];
    forall r | r in y.responses ensures CanAccept(y.client, r) {
      assert ResponseOk(r, s.lastCommitted);
    }
  }

  /** A callback, once made, is never made again or taken back. */
  lemma {:induction false} CallsOnlyGrow(ys: seq<System>, steps: seq<Step>, me: Id, a: nat, b: nat)
    requires Run(ys, steps, me) && a <= b < |ys|
    ensures ys[a].client.calls <= ys[b].client.calls
    decreases b - a
  {
    if a < b {
      CallsOnlyGrow(ys, steps, me, a, b - 1);
      CallsGrowAt(ys, steps, me, b - 1);
      LongerCalls(ys[a].client.calls, ys[b - 1].client.calls, ys[b].client.calls);
    }
  }

  lemma CallsGrowAt(ys: seq<System>, steps: seq<Step>, me: Id, k: nat)
    requires Run(ys, steps, me) && k < |steps|
    ensures ys[k].client.calls <= ys[k + 1].client.calls
  {
    RunNext(ys, steps, me, k);
  }

  lemma LongerCalls(a: seq<nat>, b: seq<nat>, c: seq<nat>)
    requires a <= b && b <= c
    ensures a <= c
  {}
}
