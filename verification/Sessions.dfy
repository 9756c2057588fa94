/**
 The session a server keeps for each client: which of its messages were received and committed.
 */
module Sessions {
  import opened Types

  datatype Session = Session(
    clientId: Id,
    lastReceived: nat,
    lastCommitted: nat,
    outOfOrder: bool,
    committed: bool)
  {
    /** Whether a message with this id is the next one expected. */
    predicate Expects(messageId: nat) {
      messageId == lastReceived + 1
    }

    function Receive(messageId: nat): Session {
      if Expects(messageId) then this.(lastReceived := messageId, outOfOrder := false)
      else if messageId > lastReceived + 1 then this.(outOfOrder := true)
      else this
    }

    function Commit(messageId: nat): Session {
      var last := if messageId > lastCommitted then messageId else lastCommitted;
      if lastReceived < last then
        this.(lastCommitted := last, lastReceived := last, outOfOrder := false, committed := true)
      else
        this.(lastCommitted := last, committed := true)
    }
  }

  function NewSession(clientId: Id): Session {
    Session(clientId, 0, 0, false, false)
  }

  /** The position of the client's session, or the number of sessions if it has none. */
  function IndexOf(sessions: seq<Session>, clientId: Id): (i: nat)
    ensures i <= |sessions|
    ensures i < |sessions| ==> sessions[i].clientId == clientId
    ensures forall j :: 0 <= j < i ==> sessions[j].clientId != clientId
  {
    if sessions == [] then 0
    else if sessions[0].clientId == clientId then 0
    else 1 + IndexOf(sessions[1..], clientId)
  }

  /** The sessions with one for this client among them. */
  function Ensure(sessions: seq<Session>, clientId: Id): (r: seq<Session>)
    ensures IndexOf(sessions, clientId) < |r|
  {
    if IndexOf(sessions, clientId) < |sessions| then sessions
    else sessions + [NewSession(clientId)]
  }

  /** The client's session, a new one if it has none. */
  function Lookup(sessions: seq<Session>, clientId: Id): (s: Session)
    ensures s.clientId == clientId
  {
    Ensure(sessions, clientId)[IndexOf(sessions, clientId)]
  }

  /** The sessions with this one in place of the client's previous session. */
  function Put(sessions: seq<Session>, session: Session): seq<Session> {
    Ensure(sessions, session.clientId)[IndexOf(sessions, session.clientId) := session]
  }

  /** What is told of the sessions to a candidate. */
  function Marks(sessions: seq<Session>): (r: seq<SessionMark>)
    ensures |r| == |sessions|
    ensures forall i :: 0 <= i < |r| ==>
      r[i] == SessionMark(sessions[i].clientId, sessions[i].lastCommitted)
  {
    if sessions == [] then []
    else [SessionMark(sessions[0].clientId, sessions[0].lastCommitted)] + Marks(sessions[1..])
  }

  function ClearCommitted(sessions: seq<Session>): (r: seq<Session>)
    ensures |r| == |sessions|
    ensures forall i :: 0 <= i < |r| ==> r[i] == sessions[i].(committed := false)
  {
    if sessions == [] then [] else [sessions[0].(committed := false)] + ClearCommitted(sessions[1..])
  }
}
