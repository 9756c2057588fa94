/**
 What a server answers a client, and what the client makes of it: where it goes, and when it learns that
 its session is lost.
 */
module Answers {
  import opened Types
  import opened Sessions
  import opened SessionFacts
  import opened Handlers
  import Clients

  /**
   A server that does not lead takes nothing from a client, and sends it to whom it takes to lead, if that
   is another server; it also tells the configuration.
   */
  lemma SentToLeader(c: Clients.Client, n: Node, request: PublishRequest)
    requires n.Retains() && n.role != Leader && c.leaderId == Some(n.id)
    ensures var (n', response) := HandlePublish(n, request);
      && n' == n && !response.accepted && response.configuration == Some(n.servers)
      && Clients.CanHear(c, response)
      && var r := Clients.HandleResponse(c, response);
         if n.leaderId == Some(n.id) then r == c.(inProgress := false)
         else !r.connected && r.leaderId == n.leaderId && r.lastSent == r.lastCommitted
  {
    Clients.RedirectedExactly(c, HandlePublish(n, request).1);
  }

  /** A leader among others sends no client away, and answers with what its session then says. */
  lemma LeaderAnswers(c: Clients.Client, n: Node, request: PublishRequest)
    requires n.Retains() && n.role == Leader && n.peers != [] && c.leaderId == Some(n.id)
    ensures var (r, response) := HandlePublish(n, request);
      var session := Lookup(r.sessions, request.clientId);
      && response.accepted && response.serverId == n.id && !Clients.Redirects(c, response)
      && response.outOfOrder == session.outOfOrder && response.lastReceived == session.lastReceived
      && response.lastCommitted == session.lastCommitted
  {
    ReceivedKeeps(n.(sessions := Ensure(n.sessions, request.clientId)), request.clientId, request.messages);
  }

  /**
   When a leader answers that messages are missing, the client's next batch begins with the one that the
   leader's session expects, unless that is known to be committed.
   */
  lemma MissingIsSent(c: Clients.Client, n: Node, request: PublishRequest, maxBatch: nat)
    requires n.Retains() && n.role == Leader && n.peers != [] && c.leaderId == Some(n.id)
    requires Clients.Window(c)
    requires var response := HandlePublish(n, request).1;
      Clients.CanAccept(c, response) && response.outOfOrder && !Clients.Restarts(c, response)
    ensures var (r, response) := HandlePublish(n, request);
      var c1, session := Clients.HandleAccepted(c, response), Lookup(r.sessions, request.clientId);
      && c1.lastSent >= c1.lastCommitted
      && var messages := Clients.NextMessages(c1, maxBatch);
         messages != [] ==>
           || session.Expects(messages[0].id)
           || (session.lastReceived < c1.lastCommitted && messages[0].id == c1.lastCommitted + 1)
  {
    LeaderAnswers(c, n, request);
    Clients.SendsMissing(c, HandlePublish(n, request).1, maxBatch);
  }

  /** Messages from a client that the server does not know, after its first, are all out of order. */
  lemma {:induction false} ReceiveUnknown(n: Node, me: Id, messages: seq<Message>)
    requires forall i :: 0 <= i < |messages| ==> messages[i].id > 1
    requires Lookup(n.sessions, me).lastReceived == Lookup(n.sessions, me).lastCommitted == 0
    requires messages == [] ==> Lookup(n.sessions, me).outOfOrder
    ensures var r := ReceiveMessages(n, me, messages);
      && r.log == n.log && Lookup(r.sessions, me).outOfOrder
      && Lookup(r.sessions, me).lastReceived == Lookup(r.sessions, me).lastCommitted == 0
    decreases |messages|
  {
    if messages != [] {
      var session := Lookup(n.sessions, me);
      LookupPut(n.sessions, session.Receive(messages[0].id), me);
      ReceiveUnknown(n.(sessions := Put(n.sessions, session.Receive(messages[0].id))), me, messages[1..]);
    }
  }

  /**
   A leader that has lost a client's session takes none of its later messages, and says so. A client that
   has had something committed asks it to restart the session then, and keeps what it has sent.
   */
  lemma LostSessionRestarts(c: Clients.Client, n: Node, me: Id, messages: seq<Message>)
    requires n.Retains() && n.role == Leader && Lookup(n.sessions, me) == NewSession(me)
    requires messages != [] && forall i :: 0 <= i < |messages| ==> messages[i].id > 1
    requires c.lastCommitted > 0
    ensures var (r, response) := HandlePublish(n, PublishRequest(me, messages));
      && r.log == n.log && response.outOfOrder && response.lastReceived == response.lastCommitted == 0
      && Clients.Restarts(c, response) && Clients.CanAccept(c, response)
      && Clients.HandleAccepted(c, response) == c
  {
    LookupEnsure(n.sessions, me, me);
    ReceiveUnknown(n.(sessions := Ensure(n.sessions, me)), me, messages);
  }
}
