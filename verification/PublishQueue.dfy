/**
 The publish protocol of a client, as it updates its queue in place.
 */
module PublishQueue {
  import opened Types
  import opened Clients

  class PublishProtocol {
    const maxBatchSize: nat
    var queue: seq<Pending>
    var nextMessageId: nat
    var lastSentMessageId: nat
    var lastCommittedMessageId: nat
    var leaderId: Option<Id>
    var connected: bool
    var inProgress: bool
    var calls: seq<nat>

    function View(): Client
      reads this
    {
      Client(queue, nextMessageId, lastSentMessageId, lastCommittedMessageId, leaderId, connected,
             inProgress, calls)
    }

    constructor (maxBatchSize: nat)
      ensures View() == NewClient() && this.maxBatchSize == maxBatchSize
    {
      this.maxBatchSize := maxBatchSize;
      queue, nextMessageId, lastSentMessageId, lastCommittedMessageId := [], 1, 0, 0;
      leaderId, connected, inProgress, calls := None, false, false, [];
    }

    method Publish(bytes: seq<bv8>, userData: nat)
      modifies this
      ensures View() == Clients.Publish(old(View()), bytes, userData)
    {
      var message := Message(nextMessageId, bytes);
      nextMessageId := nextMessageId + 1;
      queue := queue + [Pending(message, userData)];
    }

    method Process() returns (request: seq<Message>)
      requires lastSentMessageId >= lastCommittedMessageId
      modifies this
      ensures (View(), request) == Clients.Process(old(View()), maxBatchSize)
    {
      request := [];
      if connected && !inProgress {
        request := CreateRequest();
        if request != [] {
          inProgress := true;
        }
      }
    }

    method CreateRequest() returns (entries: seq<Message>)
      requires lastSentMessageId >= lastCommittedMessageId
      ensures entries == NextMessages(View(), maxBatchSize)
    {
      entries := [];
      var batchSize := 0;
      var start := lastSentMessageId - lastCommittedMessageId;
      if start >= |queue| {
        return;
      }
      ghost var all := queue[start..];
      assert queue[start..] == all;
      var i := start;
      while i < |queue|
        invariant start <= i <= |queue| && batchSize <= maxBatchSize
        invariant entries + Batch(queue[i..], maxBatchSize - batchSize) == Batch(all, maxBatchSize)
      {
        var message := queue[i].message;
        BatchNext(entries, queue, i, maxBatchSize - batchSize);
        if |message.bytes| + batchSize > maxBatchSize {
          break;
        }
        entries := entries + [message];
        batchSize := batchSize + |message.bytes|;
        i := i + 1;
      }
    }

    /** Whether a leader that forgot the session is to be asked to restart it. */
    method HandleSucceededResponse(response: PublishResponse) returns (restart: bool)
      requires CanHear(View(), response)
      modifies this
      ensures View() == HandleResponse(old(View()), response)
      ensures restart == (old(leaderId) == Some(response.serverId) && response.accepted
                          && Restarts(old(View()), response))
    {
      inProgress := false;
      restart := false;
      match leaderId {
        case Some(leader) =>
          if response.serverId != leader {
            return;
          }
        case None =>
          return;
      }
      if response.accepted {
        restart := HandleAcceptedPublishResponse(response);
      } else if response.leaderId.None? || response.leaderId != leaderId {
        OnLeaderDisconnected();
        if response.leaderId.Some? {
          leaderId := response.leaderId;
        }
      }
    }

    method HandleAcceptedPublishResponse(response: PublishResponse) returns (restart: bool)
      requires CanAccept(View(), response)
      modifies this
      ensures View() == HandleAccepted(old(View()), response)
      ensures restart == Restarts(old(View()), response)
    {
      restart := false;
      if response.outOfOrder {
        if response.lastReceived == 0 && lastCommittedMessageId > 0 {
          restart := true;
        } else {
          lastSentMessageId := response.lastReceived;
        }
      }
      if response.lastCommitted != 0 {
        RemoveCommittedEntries(response.lastCommitted);
      }
    }

    method RemoveCommittedEntries(lastCommitted: nat)
      modifies this
      ensures View() == RemoveCommitted(old(View()), lastCommitted)
    {
      ghost var removed := RemoveCommitted(View(), lastCommitted);
      while true
        invariant RemoveCommitted(View(), lastCommitted) == removed
        decreases |queue|
      {
        if queue == [] {
          break;
        }
        var info := queue[0];
        if info.message.id > lastCommitted {
          break;
        }
        lastCommittedMessageId := info.message.id;
        if lastSentMessageId < lastCommittedMessageId {
          lastSentMessageId := lastCommittedMessageId;
        }
        queue := queue[1..];
        calls := calls + [info.userData];
      }
    }

    method OnLeaderDisconnected()
      modifies this
      ensures View() == Disconnect(old(View()))
    {
      if leaderId.Some? {
        leaderId := None;
        inProgress := false;
        connected := false;
        lastSentMessageId := lastCommittedMessageId;
      }
    }

    method EnsureMessageSender(leader: Id)
      modifies this
      ensures View() == Connect(old(View()), leader)
    {
      if !connected {
        leaderId := Some(leader);
        connected := true;
        inProgress := false;
      }
    }
  }
}
