/**
 A client's queue of published messages: which were sent, and which the group has committed.
 */
module Clients {
  import opened Types

  /** A published message, with what its publisher is called back with once it is committed. */
  datatype Pending = Pending(message: Message, userData: nat)

  datatype Client = Client(
    queue: seq<Pending>,
    nextId: nat,
    lastSent: nat,
    lastCommitted: nat,
    leaderId: Option<Id>,
    connected: bool,
    inProgress: bool,
    calls: seq<nat>)

  function NewClient(): Client {
    Client([], 1, 0, 0, None, false, false, [])
  }

  function Publish(c: Client, bytes: seq<bv8>, userData: nat): Client {
    c.(queue := c.queue + [Pending(Message(c.nextId, bytes), userData)], nextId := c.nextId + 1)
  }

  /** The first messages of a queue, as many as fit. */
  function Batch(queue: seq<Pending>, room: int): seq<Message> {
    if queue == [] || |queue[0].message.bytes| > room then []
    else [queue[0].message] + Batch(queue[1..], room - |queue[0].message.bytes|)
  }

  lemma BatchNext(before: seq<Message>, queue: seq<Pending>, i: nat, room: int)
    requires i < |queue|
    ensures before + Batch(queue[i..], room)
      == if |queue[i].message.bytes| > room then before
         else (before + [queue[i].message]) + Batch(queue[i + 1..], room - |queue[i].message.bytes|)
  {
    assert queue[i..][1..] == queue[i + 1..];
  }

  /** The messages of the next request; there is no request when there are none. */
  function NextMessages(c: Client, maxBatch: nat): seq<Message>
    requires c.lastSent >= c.lastCommitted
  {
    var start := c.lastSent - c.lastCommitted;
    if start >= |c.queue| then [] else Batch(c.queue[start..], maxBatch)
  }

  /** The client once the first message of its queue is removed. */
  function RemoveFirst(c: Client): Client
    requires c.queue != []
  {
    var id := c.queue[0].message.id;
    c.(lastCommitted := id,
       lastSent := if c.lastSent < id then id else c.lastSent,
       queue := c.queue[1..],
       calls := c.calls + [c.queue[0].userData])
  }

  function RemoveCommitted(c: Client, committed: nat): Client
    decreases |c.queue|
  {
    if c.queue == [] || c.queue[0].message.id > committed then c
    else RemoveCommitted(RemoveFirst(c), committed)
  }

  /** A leader that forgot the session is asked to restart it. */
  predicate Restarts(c: Client, response: PublishResponse) {
    response.outOfOrder && response.lastReceived == 0 && c.lastCommitted > 0
  }

  /** The assertion of the original on an accepted response. */
  predicate CanAccept(c: Client, response: PublishResponse) {
    response.outOfOrder && !Restarts(c, response) ==> response.lastReceived >= c.lastCommitted
  }

  function HandleAccepted(c: Client, response: PublishResponse): Client
    requires CanAccept(c, response)
  {
    var c1 := if response.outOfOrder && !Restarts(c, response)
              then c.(lastSent := response.lastReceived) else c;
    if response.lastCommitted != 0 then RemoveCommitted(c1, response.lastCommitted) else c1
  }

  function Disconnect(c: Client): Client {
    if c.leaderId.Some?
    then c.(leaderId := None, connected := false, inProgress := false, lastSent := c.lastCommitted)
    else c
  }

  /** The assertion holds, or the response does not get as far: it is no leader's answer. */
  predicate CanHear(c: Client, response: PublishResponse) {
    c.leaderId == Some(response.serverId) && response.accepted ==> CanAccept(c, response)
  }

  function HandleResponse(c: Client, response: PublishResponse): Client
    requires CanHear(c, response)
  {
    var c1 := c.(inProgress := false);
    if c.leaderId.None? || response.serverId != c.leaderId.value then c1
    else if response.accepted then HandleAccepted(c1, response)
    else if response.leaderId.None? || response.leaderId != c.leaderId then
      var c2 := Disconnect(c1);
      if response.leaderId.Some? then c2.(leaderId := response.leaderId) else c2
    else c1
  }

  /** A sender to this server is made, if there is none. */
  function Connect(c: Client, leader: Id): Client {
    if c.connected then c else c.(leaderId := Some(leader), connected := true, inProgress := false)
  }

  /** The client sends its next messages, unless a request is under way. */
  function Process(c: Client, maxBatch: nat): (Client, seq<Message>)
    requires c.lastSent >= c.lastCommitted
  {
    var messages := NextMessages(c, maxBatch);
    if c.connected && !c.inProgress && messages != [] then (c.(inProgress := true), messages)
    else (c, [])
  }

  //
  // The window of a client
  //

  /** The queue is the run of ids from the committed one up to the next one, and nothing less was sent. */
  predicate Window(c: Client) {
    && c.nextId == c.lastCommitted + 1 + |c.queue|
    && c.lastSent >= c.lastCommitted
    && forall i :: 0 <= i < |c.queue| ==> c.queue[i].message.id == c.lastCommitted + 1 + i
  }

  function Total(messages: seq<Message>): nat {
    if messages == [] then 0 else |messages[0].bytes| + Total(messages[1..])
  }

  /** A batch is the start of the queue: it fits, and one more message would not. */
  lemma {:induction false} BatchIsLongest(queue: seq<Pending>, room: nat)
    ensures var b := Batch(queue, room);
      && |b| <= |queue| && (forall i :: 0 <= i < |b| ==> b[i] == queue[i].message)
      && Total(b) <= room
      && (|b| < |queue| ==> Total(b) + |queue[|b|].message.bytes| > room)
  {
    if queue != [] && |queue[0].message.bytes| <= room {
      BatchIsLongest(queue[1..], room - |queue[0].message.bytes|);
      var rest := Batch(queue[1..], room - |queue[0].message.bytes|);
      assert Batch(queue, room)[1..] == rest;
      assert |rest| < |queue[1..]| ==> queue[1..][|rest|] == queue[|rest| + 1];
    }
  }

  /** Every request is the run of ids from the last sent one on, within the batch size. */
  lemma RequestIsRun(c: Client, maxBatch: nat)
    requires Window(c)
    ensures var messages := NextMessages(c, maxBatch);
      && (forall i :: 0 <= i < |messages| ==>
            && messages[i].id == c.lastSent + 1 + i
            && messages[i].id < c.nextId
            && messages[i] == c.queue[messages[i].id - c.lastCommitted - 1].message)
      && Total(messages) <= maxBatch
  {
    var start := c.lastSent - c.lastCommitted;
    if start < |c.queue| {
      BatchIsLongest(c.queue[start..], maxBatch);
      var messages := Batch(c.queue[start..], maxBatch);
      forall i | 0 <= i < |messages| ensures messages[i] == c.queue[start + i].message {
        assert c.queue[start..][i] == c.queue[start + i];
      }
    }
  }

  /** There is nothing to send exactly when all was sent, or the next message alone is too long. */
  lemma NothingToSend(c: Client, maxBatch: nat)
    requires Window(c)
    ensures NextMessages(c, maxBatch) == [] <==>
      || c.lastSent + 1 >= c.nextId
      || |c.queue[c.lastSent - c.lastCommitted].message.bytes| > maxBatch
  {}

  /** What was called back and what is still queued is all that was published, in order. */
  function History(c: Client): seq<nat> {
    c.calls + Waiting(c.queue)
  }

  function Waiting(queue: seq<Pending>): (r: seq<nat>)
    ensures |r| == |queue| && forall i :: 0 <= i < |r| ==> r[i] == queue[i].userData
  {
    if queue == [] then [] else [queue[0].userData] + Waiting(queue[1..])
  }

  lemma RemoveFirstKeeps(c: Client)
    requires Window(c) && c.queue != []
    ensures var r := RemoveFirst(c);
      && Window(r) && History(r) == History(c) && c.calls <= r.calls
      && |r.calls| == |c.calls| + 1 && r.lastCommitted == c.lastCommitted + 1
  {
    RemoveFirstWindow(c);
    FirstCalled(c.calls, c.queue);
  }

  lemma FirstCalled(calls: seq<nat>, queue: seq<Pending>)
    requires queue != []
    ensures (calls + [queue[0].userData]) + Waiting(queue[1..]) == calls + Waiting(queue)
  {
    assert Waiting(queue) == [queue[0].userData] + Waiting(queue[1..]);
  }

  lemma RemoveFirstWindow(c: Client)
    requires Window(c) && c.queue != []
    ensures Window(RemoveFirst(c)) && RemoveFirst(c).lastCommitted == c.lastCommitted + 1
  {
    var r := RemoveFirst(c);
    forall i | 0 <= i < |r.queue| ensures r.queue[i].message.id == r.lastCommitted + 1 + i {
      assert r.queue[i] == c.queue[i + 1];
    }
  }

  /** Removing goes as far as the committed id, or to the end of the queue. */
  lemma {:induction false} RemovingKeepsWindow(c: Client, committed: nat)
    requires Window(c)
    ensures Window(RemoveCommitted(c, committed)) && Removed(c, committed, RemoveCommitted(c, committed))
    decreases |c.queue|
  {
    if c.queue != [] && c.queue[0].message.id <= committed {
      RemoveFirstWindow(c);
      RemovingKeepsWindow(RemoveFirst(c), committed);
      RemovedOneMore(c, committed, RemoveCommitted(c, committed));
    }
  }

  /** What removing leaves: the queue after the committed id, and nothing else changed. */
  predicate Removed(c: Client, committed: nat, r: Client) {
    && r == c.(lastCommitted := r.lastCommitted, lastSent := r.lastSent, queue := r.queue, calls := r.calls)
    && r.lastCommitted == (if committed <= c.lastCommitted then c.lastCommitted
                           else if committed < c.nextId then committed else c.nextId - 1)
    && r.lastSent == (if c.lastSent < r.lastCommitted then r.lastCommitted else c.lastSent)
    && 0 <= r.lastCommitted - c.lastCommitted <= |c.queue|
    && r.queue == c.queue[r.lastCommitted - c.lastCommitted..]
  }

  lemma RemovedOneMore(c: Client, committed: nat, r: Client)
    requires Window(c) && c.queue != [] && c.queue[0].message.id <= committed
    requires Removed(RemoveFirst(c), committed, r)
    ensures Removed(c, committed, r)
  {
    var k := r.lastCommitted - c.lastCommitted - 1;
    assert c.queue[0].message.id == c.lastCommitted + 1;
    assert c.queue[1..][k..] == c.queue[k + 1..];
  }

  /** Each message removed is called back. */
  lemma {:induction false} RemovingKeepsHistory(c: Client, committed: nat)
    requires Window(c)
    ensures var r := RemoveCommitted(c, committed);
      && History(r) == History(c) && c.calls <= r.calls
      && |r.calls| - |c.calls| == r.lastCommitted - c.lastCommitted
    decreases |c.queue|
  {
    if c.queue != [] && c.queue[0].message.id <= committed {
      RemoveFirstKeeps(c);
      RemovingKeepsHistory(RemoveFirst(c), committed);
    }
  }

  datatype Event =
    | Publishing(bytes: seq<bv8>, userData: nat)
    | Sending(maxBatch: nat)
    | Connecting(leader: Id)
    | Responding(response: PublishResponse)
    | Disconnecting

  /** No answer of the leader fails the assertion on what it last received. */
  predicate Enabled(c: Client, e: Event) {
    match e
    case Responding(response) => CanHear(c, response)
    case _ => true
  }

  function Next(c: Client, e: Event): Client
    requires c.lastSent >= c.lastCommitted && Enabled(c, e)
  {
    match e
    case Publishing(bytes, userData) => Publish(c, bytes, userData)
    case Sending(maxBatch) => Process(c, maxBatch).0
    case Connecting(leader) => Connect(c, leader)
    case Responding(response) => HandleResponse(c, response)
    case Disconnecting => Disconnect(c)
  }

  /** Every event keeps the window and calls back, or keeps in the queue, what was published. */
  lemma WindowKept(c: Client, e: Event)
    requires Window(c) && |c.calls| == c.lastCommitted && Enabled(c, e)
    ensures var r := Next(c, e);
      && Window(r) && |r.calls| == r.lastCommitted
      && c.calls <= r.calls
      && History(r) == History(c) + if e.Publishing? then [e.userData] else []
  {
    match e
    case Publishing(bytes, userData) =>
      PublishingKeepsWindow(c, bytes, userData);
    case Responding(response) =>
      ResponseKeepsWindow(c, response);
    case Sending(maxBatch) => SameHistory(c, Process(c, maxBatch).0);
    case Connecting(leader) => SameHistory(c, Connect(c, leader));
    case Disconnecting => SameHistory(c, Disconnect(c));
  }

  predicate NextAt(cs: seq<Client>, events: seq<Event>, k: nat)
    requires |cs| == |events| + 1 && k < |events|
  {
    cs[k].lastSent >= cs[k].lastCommitted ==> Enabled(cs[k], events[k]) && cs[k + 1] == Next(cs[k], events[k])
  }

  /** A new client, and whatever happens to it. */
  ghost predicate Run(cs: seq<Client>, events: seq<Event>) {
    && |cs| == |events| + 1 && cs[0] == NewClient()
    && forall k: nat {:trigger NextAt(cs, events, k)} :: k < |events| ==> NextAt(cs, events, k)
  }

  /** What the first `k` events publish, in order. */
  function PublishedBy(events: seq<Event>, k: nat): seq<nat>
    requires k <= |events|
  {
    if k == 0 then []
    else PublishedBy(events, k - 1)
         + if events[k - 1].Publishing? then [events[k - 1].userData] else []
  }

  /**
   In any run of a client, through lost leaders and whatever is answered short of failing its assertion,
   the window is kept, no request is built from before what is committed, and what was called back and
   what is queued is all that was published, in order and each once.
   */
  lemma {:induction false} WindowInRuns(cs: seq<Client>, events: seq<Event>, k: nat)
    requires Run(cs, events) && k < |cs|
    ensures Window(cs[k]) && |cs[k].calls| == cs[k].lastCommitted
    ensures cs[k].calls + Waiting(cs[k].queue) == PublishedBy(events, k)
  {
    if k > 0 {
      WindowInRuns(cs, events, k - 1);
      assert NextAt(cs, events, k - 1);
      WindowKept(cs[k - 1], events[k - 1]);
      assert History(cs[k]) == PublishedBy(events, k);
    }
  }

  /** Callbacks are never taken back. */
  lemma {:induction false} CalledForGood(cs: seq<Client>, events: seq<Event>, a: nat, b: nat)
    requires Run(cs, events) && a <= b < |cs|
    ensures cs[a].calls <= cs[b].calls
    decreases b - a
  {
    if a < b {
      CalledForGood(cs, events, a, b - 1);
      WindowInRuns(cs, events, b - 1);
      assert NextAt(cs, events, b - 1);
      WindowKept(cs[b - 1], events[b - 1]);
    }
  }

  //
  // Refusals
  //

  /** The server that the client sends to refuses, and names another leader or none. */
  predicate Redirects(c: Client, response: PublishResponse) {
    c.leaderId == Some(response.serverId) && !response.accepted && response.leaderId != c.leaderId
  }

  /**
   A client that is sent elsewhere leaves the server, takes whom it names as the leader, and will send
   everything that is not committed again. Another refusal, and whatever another server answers, only
   ends the request.
   */
  lemma RedirectedExactly(c: Client, response: PublishResponse)
    requires CanHear(c, response)
    ensures var r := HandleResponse(c, response);
      && !r.inProgress && r.nextId == c.nextId
      && (Redirects(c, response) ==>
            && !r.connected && r.leaderId == response.leaderId
            && r.lastSent == r.lastCommitted == c.lastCommitted && r.queue == c.queue && r.calls == c.calls)
      && (!Redirects(c, response) ==> r.connected == c.connected && r.leaderId == c.leaderId)
      && (!Redirects(c, response) && !(c.leaderId == Some(response.serverId) && response.accepted) ==>
            r == c.(inProgress := false))
  {
    if CanAccept(c, response) {
      AcceptedKeepsLeader(c.(inProgress := false), response);
    }
  }

  lemma AcceptedKeepsLeader(c: Client, response: PublishResponse)
    requires CanAccept(c, response)
    ensures var r := HandleAccepted(c, response);
      && r.connected == c.connected && r.leaderId == c.leaderId
      && r.inProgress == c.inProgress && r.nextId == c.nextId
  {
    RemovingKeepsLeader(c, response.lastCommitted);
    RemovingKeepsLeader(c.(lastSent := response.lastReceived), response.lastCommitted);
  }

  lemma {:induction false} RemovingKeepsLeader(c: Client, committed: nat)
    ensures var r := RemoveCommitted(c, committed);
      && r.connected == c.connected && r.leaderId == c.leaderId
      && r.inProgress == c.inProgress && r.nextId == c.nextId
    decreases |c.queue|
  {
    if c.queue != [] && c.queue[0].message.id <= committed {
      RemovingKeepsLeader(RemoveFirst(c), committed);
    }
  }

  /** A client is connected only by connecting. */
  lemma ConnectedBy(c: Client, e: Event)
    requires c.lastSent >= c.lastCommitted && Enabled(c, e)
    ensures Next(c, e).connected ==> c.connected || e.Connecting?
  {
    if e.Responding? {
      RedirectedExactly(c, e.response);
    }
  }

  /**
   In any run, a client that was sent elsewhere and is connected later has connected to a server since.
   Before that it sends nothing.
   */
  lemma {:induction false} ConnectsAgain(cs: seq<Client>, events: seq<Event>, a: nat, b: nat) returns (m: nat)
    requires Run(cs, events) && a < b < |cs| && cs[b].connected
    requires events[a].Responding? && Redirects(cs[a], events[a].response)
    ensures a < m < b && events[m].Connecting?
    ensures forall j, maxBatch ::
      a < j <= m && cs[j].lastSent >= cs[j].lastCommitted ==> Process(cs[j], maxBatch).1 == []
    decreases b
  {
    WindowInRuns(cs, events, a);
    assert NextAt(cs, events, a);
    RedirectedExactly(cs[a], events[a].response);
    m := FirstConnect(cs, events, a + 1, b);
  }

  lemma {:induction false} FirstConnect(cs: seq<Client>, events: seq<Event>, a: nat, b: nat) returns (m: nat)
    requires Run(cs, events) && a <= b < |cs| && !cs[a].connected && cs[b].connected
    ensures a <= m < b && events[m].Connecting? && forall j :: a <= j <= m ==> !cs[j].connected
    decreases b - a
  {
    WindowInRuns(cs, events, a);
    assert NextAt(cs, events, a);
    ConnectedBy(cs[a], events[a]);
    if events[a].Connecting? {
      m := a;
    } else {
      m := FirstConnect(cs, events, a + 1, b);
    }
  }

  /** In any run, a connected client sends to the server that it connected to last. */
  lemma {:induction false} ConnectedTo(cs: seq<Client>, events: seq<Event>, k: nat) returns (m: nat)
    requires Run(cs, events) && k < |cs| && cs[k].connected
    ensures m < k && events[m].Connecting? && cs[k].leaderId == Some(events[m].leader)
  {
    WindowInRuns(cs, events, k - 1);
    assert NextAt(cs, events, k - 1);
    KeepsServer(cs[k - 1], events[k - 1]);
    if cs[k - 1].connected {
      m := ConnectedTo(cs, events, k - 1);
    } else {
      m := k - 1;
    }
  }

  lemma KeepsServer(c: Client, e: Event)
    requires c.lastSent >= c.lastCommitted && Enabled(c, e) && Next(c, e).connected
    ensures if c.connected then Next(c, e).leaderId == c.leaderId
            else e.Connecting? && Next(c, e).leaderId == Some(e.leader)
  {
    if e.Responding? {
      RedirectedExactly(c, e.response);
    }
  }

  /** A request is under way from when it is sent until it is answered, or the leader is lost. */
  lemma OneAtATime(c: Client, maxBatch: nat)
    requires c.lastSent >= c.lastCommitted
    ensures var (r, messages) := Process(c, maxBatch);
      && (messages != [] ==> c.connected && !c.inProgress && r.inProgress && messages == NextMessages(c, maxBatch))
      && (c.connected && !c.inProgress ==> messages == NextMessages(c, maxBatch))
      && r == c.(inProgress := r.inProgress)
  {}

  /** After an answer that messages are missing, what is not received is sent again, all of it in order. */
  lemma SendsMissing(c: Client, response: PublishResponse, maxBatch: nat)
    requires Window(c) && CanAccept(c, response) && response.outOfOrder && !Restarts(c, response)
    ensures var r := HandleAccepted(c, response);
      && r.lastSent == (if response.lastReceived < r.lastCommitted then r.lastCommitted else response.lastReceived)
      && forall i :: 0 <= i < |NextMessages(r, maxBatch)| ==> NextMessages(r, maxBatch)[i].id == r.lastSent + 1 + i
  {
    var c1 := c.(lastSent := response.lastReceived);
    SentKeepsWindow(c, response.lastReceived);
    RemovingKeepsWindow(c1, response.lastCommitted);
    RequestIsRun(HandleAccepted(c, response), maxBatch);
  }

  lemma SameHistory(c: Client, r: Client)
    requires r.queue == c.queue && r.calls == c.calls
    ensures History(r) == History(c)
  {}

  lemma ResponseKeepsWindow(c: Client, response: PublishResponse)
    requires Window(c) && CanHear(c, response)
    ensures var r := HandleResponse(c, response);
      && Window(r) && c.calls <= r.calls && History(r) == History(c)
      && |r.calls| - |c.calls| == r.lastCommitted - c.lastCommitted
  {
    var c1 := c.(inProgress := false);
    assert Window(c1) && History(c1) == History(c);
    if CanAccept(c1, response) {
      RespondingKeepsWindow(c1, response);
    }
    assert Window(Disconnect(c1)) && History(Disconnect(c1)) == History(c);
  }

  lemma RespondingKeepsWindow(c: Client, response: PublishResponse)
    requires Window(c) && CanAccept(c, response)
    ensures var r := HandleAccepted(c, response);
      && Window(r) && c.calls <= r.calls && History(r) == History(c)
      && |r.calls| - |c.calls| == r.lastCommitted - c.lastCommitted
  {
    var sent := if response.outOfOrder && !Restarts(c, response) then response.lastReceived else c.lastSent;
    var c1 := c.(lastSent := sent);
    SentKeepsWindow(c, sent);
    RemovingKeepsWindow(c1, response.lastCommitted);
    RemovingKeepsHistory(c1, response.lastCommitted);
  }

  lemma SentKeepsWindow(c: Client, sent: nat)
    requires Window(c) && sent >= c.lastCommitted
    ensures Window(c.(lastSent := sent)) && History(c.(lastSent := sent)) == History(c)
  {}

  lemma PublishingKeepsWindow(c: Client, bytes: seq<bv8>, userData: nat)
    requires Window(c)
    ensures var r := Publish(c, bytes, userData);
      Window(r) && History(r) == History(c) + [userData]
  {
    assert Waiting(Publish(c, bytes, userData).queue) == Waiting(c.queue) + [userData];
  }
}
