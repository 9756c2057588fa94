/**
 The sessions a server keeps for its clients, as it updates them in place.
 */
module ClientSessions {
  import opened Types
  import opened Sessions

  class ClientSessionManager {
    var sessions: seq<Session>

    constructor ()
      ensures sessions == []
    {
      sessions := [];
    }

    /** The position of the client's session, which is a new one if it has none. */
    method EnsureSession(clientId: Id) returns (index: nat)
      modifies this
      ensures sessions == Ensure(old(sessions), clientId)
      ensures index == IndexOf(old(sessions), clientId)
    {
      index := 0;
      while index < |sessions| && sessions[index].clientId != clientId
        invariant index <= IndexOf(sessions, clientId)
      {
        index := index + 1;
      }
      if index == |sessions| {
        sessions := sessions + [NewSession(clientId)];
      }
    }

    /** Whether the message is the next one; a later one is noted as out of order. */
    method Receive(index: nat, messageId: nat) returns (received: bool)
      requires index < |sessions|
      modifies this
      ensures sessions == old(sessions)[index := old(sessions)[index].Receive(messageId)]
      ensures received == old(sessions)[index].Expects(messageId)
    {
      if messageId == sessions[index].lastReceived + 1 {
        sessions := sessions[index := sessions[index].(lastReceived := messageId)];
        sessions := sessions[index := sessions[index].(outOfOrder := false)];
        return true;
      } else if messageId > sessions[index].lastReceived + 1 {
        sessions := sessions[index := sessions[index].(outOfOrder := true)];
      }
      received := false;
    }

    method Commit(index: nat, messageId: nat)
      requires index < |sessions|
      modifies this
      ensures sessions == old(sessions)[index := old(sessions)[index].Commit(messageId)]
    {
      if messageId > sessions[index].lastCommitted {
        sessions := sessions[index := sessions[index].(lastCommitted := messageId)];
      }
      if sessions[index].lastReceived < sessions[index].lastCommitted {
        sessions := sessions[index := sessions[index].(lastReceived := sessions[index].lastCommitted)];
        sessions := sessions[index := sessions[index].(outOfOrder := false)];
      }
      sessions := sessions[index := sessions[index].(committed := true)];
    }

    /** The client's session learns what it committed on another server. */
    method Learn(clientId: Id, lastCommitted: nat)
      modifies this
      ensures var session := Lookup(old(sessions), clientId);
        sessions == if session.lastCommitted < lastCommitted
                    then Put(old(sessions), session.Commit(lastCommitted).(committed := false))
                    else Ensure(old(sessions), clientId)
    {
      var index := EnsureSession(clientId);
      if sessions[index].lastCommitted < lastCommitted {
        Commit(index, lastCommitted);
        sessions := sessions[index := sessions[index].(committed := false)];
      }
    }

    /** The last message that the client's session received is this one, whatever it was before. */
    method SetLastReceived(clientId: Id, messageId: nat)
      modifies this
      ensures sessions == Put(old(sessions), Lookup(old(sessions), clientId).(lastReceived := messageId))
    {
      var index := EnsureSession(clientId);
      sessions := sessions[index := sessions[index].(lastReceived := messageId)];
    }

    method ClearCommitted()
      modifies this
      ensures sessions == Sessions.ClearCommitted(old(sessions))
    {
      for i := 0 to |sessions|
        invariant |sessions| == |old(sessions)|
        invariant forall j :: 0 <= j < i ==> sessions[j] == old(sessions)[j].(committed := false)
        invariant forall j :: i <= j < |sessions| ==> sessions[j] == old(sessions)[j]
      {
        if sessions[i].committed {
          sessions := sessions[i := sessions[i].(committed := false)];
        }
      }
    }

    method Marks() returns (marks: seq<SessionMark>)
      ensures marks == Sessions.Marks(sessions)
    {
      marks := [];
      for i := 0 to |sessions|
        invariant |marks| == i
        invariant forall j :: 0 <= j < i ==> marks[j] == Sessions.Marks(sessions)[j]
      {
        marks := marks + [SessionMark(sessions[i].clientId, sessions[i].lastCommitted)];
      }
    }

    method Clear()
      modifies this
      ensures sessions == []
    {
      sessions := [];
    }
  }
}
