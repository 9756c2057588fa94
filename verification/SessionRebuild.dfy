/**
 What a new leader makes of its client sessions, from what its voters told it and from its log.
 */
module SessionRebuild {
  import opened Types
  import opened Log
  import opened Sessions
  import opened SessionFacts
  import opened Handlers
  import opened ExactlyOnce

  //
  // What was committed
  //

  /** The client's mark in one of the states says that this much was committed. */
  predicate Told(states: seq<(Id, TransientState)>, me: Id, committed: nat, i: nat, j: nat) {
    && i < |states| && j < |states[i].1.sessions|
    && states[i].1.sessions[j] == SessionMark(me, committed)
  }

  ghost predicate ToldSomewhere(states: seq<(Id, TransientState)>, me: Id, committed: nat) {
    exists i: nat, j: nat :: Told(states, me, committed, i, j)
  }

  ghost predicate ToldIn(marks: seq<SessionMark>, me: Id, committed: nat) {
    exists j: nat {:trigger marks[j]} :: j < |marks| && marks[j] == SessionMark(me, committed)
  }

  lemma ApplyMarkLookup(sessions: seq<Session>, mark: SessionMark, me: Id)
    ensures var s, r := Lookup(sessions, me), Lookup(ApplyMark(sessions, mark), me);
      && r.lastCommitted == (if mark.clientId == me then Greatest(s.lastCommitted, mark.lastCommitted)
                             else s.lastCommitted)
      && r.lastReceived == (if r.lastCommitted > s.lastCommitted then Greatest(s.lastReceived, r.lastCommitted)
                            else s.lastReceived)
  {
    var session := Lookup(sessions, mark.clientId);
    LookupEnsure(sessions, mark.clientId, me);
    LookupPut(sessions, session.Commit(mark.lastCommitted).(committed := false), me);
  }

  /** The committed id is now at least what it was, and what was told, and one of these. */
  ghost predicate Highest(before: nat, after: nat, marks: seq<SessionMark>, me: Id) {
    && after >= before
    && (forall j: nat {:trigger marks[j]} :: j < |marks| && marks[j].clientId == me ==>
          marks[j].lastCommitted <= after)
    && (after == before || ToldIn(marks, me, after))
  }

  lemma {:induction false} ApplyMarksHighest(sessions: seq<Session>, marks: seq<SessionMark>, me: Id)
    ensures Highest(Lookup(sessions, me).lastCommitted,
                    Lookup(ApplyMarks(sessions, marks), me).lastCommitted, marks, me)
    decreases |marks|
  {
    if marks != [] {
      var next := ApplyMark(sessions, marks[0]);
      ApplyMarkLookup(sessions, marks[0], me);
      ApplyMarksHighest(next, marks[1..], me);
      HighestNext(Lookup(sessions, me).lastCommitted, Lookup(next, me).lastCommitted,
                  Lookup(ApplyMarks(sessions, marks), me).lastCommitted, marks, me);
    }
  }

  lemma HighestNext(before: nat, middle: nat, after: nat, marks: seq<SessionMark>, me: Id)
    requires marks != [] && Highest(middle, after, marks[1..], me)
    requires middle == if marks[0].clientId == me then Greatest(before, marks[0].lastCommitted) else before
    ensures Highest(before, after, marks, me)
  {
    forall j: nat | j < |marks| && marks[j].clientId == me ensures marks[j].lastCommitted <= after {
      assert j > 0 ==> marks[1..][j - 1] == marks[j];
    }
    if after != middle {
      var j: nat :| j < |marks[1..]| && marks[1..][j] == SessionMark(me, after);
      assert marks[j + 1] == SessionMark(me, after);
    } else if after != before {
      assert marks[0] == SessionMark(me, after);
    }
  }

  /** The highest of what the session had committed and of what any state tells. */
  ghost predicate HighestOfAll(before: nat, after: nat, states: seq<(Id, TransientState)>, me: Id) {
    && after >= before
    && (forall i: nat, j: nat, told: nat :: Told(states, me, told, i, j) ==> told <= after)
    && (after == before || ToldSomewhere(states, me, after))
  }

  lemma {:induction false} ApplyAllMarksHighest(
    sessions: seq<Session>, states: seq<(Id, TransientState)>, me: Id)
    ensures HighestOfAll(Lookup(sessions, me).lastCommitted,
                         Lookup(ApplyAllMarks(sessions, states), me).lastCommitted, states, me)
    decreases |states|
  {
    if states != [] {
      var next := ApplyMarks(sessions, states[0].1.sessions);
      ApplyMarksHighest(sessions, states[0].1.sessions, me);
      ApplyAllMarksHighest(next, states[1..], me);
      HighestOfAllNext(Lookup(sessions, me).lastCommitted, Lookup(next, me).lastCommitted,
                       Lookup(ApplyAllMarks(sessions, states), me).lastCommitted, states, me);
    }
  }

  lemma HighestOfAllNext(before: nat, middle: nat, after: nat, states: seq<(Id, TransientState)>, me: Id)
    requires states != [] && Highest(before, middle, states[0].1.sessions, me)
    requires HighestOfAll(middle, after, states[1..], me)
    ensures HighestOfAll(before, after, states, me)
  {
    forall i: nat, j: nat, told: nat | Told(states, me, told, i, j) ensures told <= after {
      if i > 0 {
        assert Told(states[1..], me, told, i - 1, j);
      } else {
        assert states[0].1.sessions[j].clientId == me;
      }
    }
    if after != middle {
      var i: nat, j: nat :| Told(states[1..], me, after, i, j);
      assert Told(states, me, after, i + 1, j);
    } else if after != before {
      var j: nat :| j < |states[0].1.sessions| && states[0].1.sessions[j] == SessionMark(me, after);
      assert Told(states, me, after, 0, j);
    }
  }

  //
  // What was received
  //

  /** The id of the client's last entry, if it has one. */
  function LastOf(entries: seq<Entry>, me: Id): Option<nat> {
    if entries == [] then None
    else if entries[|entries| - 1].clientId == Some(me) then Some(entries[|entries| - 1].messageId)
    else LastOf(entries[..|entries| - 1], me)
  }

  lemma {:induction false} ReceiveEntriesConcat(sessions: seq<Session>, entries: seq<Entry>, e: Entry)
    ensures ReceiveEntries(sessions, entries + [e]) == ReceiveEntry(ReceiveEntries(sessions, entries), e)
    decreases |entries|
  {
    if entries == [] {
      assert [] + [e] == [e] && [e][1..] == [];
    } else {
      ReceiveEntriesConcat(ReceiveEntry(sessions, entries[0]), entries[1..], e);
      assert (entries + [e])[1..] == entries[1..] + [e];
    }
  }

  /** The log says what was received last, and nothing about what was committed. */
  lemma {:induction false} ReceiveEntriesLookup(sessions: seq<Session>, entries: seq<Entry>, me: Id)
    ensures var s, r := Lookup(sessions, me), Lookup(ReceiveEntries(sessions, entries), me);
      && r.lastCommitted == s.lastCommitted
      && r.lastReceived == match LastOf(entries, me) case Some(id) => id case None => s.lastReceived
    decreases |entries|
  {
    if entries != [] {
      var before, e := entries[..|entries| - 1], entries[|entries| - 1];
      ReceiveEntriesLookup(sessions, before, me);
      assert entries == before + [e];
      ReceiveEntriesConcat(sessions, before, e);
      if e.clientId.Some? {
        var all := ReceiveEntries(sessions, before);
        LookupPut(all, Lookup(all, e.clientId.value).(lastReceived := e.messageId), me);
      }
    }
  }

  //
  // Together
  //

  /**
   A new leader's session for a client: what it has committed is the highest of its own and all that
   voters told; and if the client has an entry above the least known commit index, what it has received
   is the id of its last entry.
   */
  lemma SessionsRebuilt(n: Node, states: seq<(Id, TransientState)>, me: Id)
    ensures var s, r := Lookup(n.sessions, me), Lookup(ApplyTransientStates(n, states).sessions, me);
      && HighestOfAll(s.lastCommitted, r.lastCommitted, states, me)
      && (LastOf(Scanned(n, states), me).Some? ==>
            && LastOf(n.log.entries, me) == LastOf(Scanned(n, states), me)
            && r.lastReceived == LastOf(n.log.entries, me).value)
  {
    ApplyAllMarksHighest(n.sessions, states, me);
    ReceiveEntriesLookup(ApplyAllMarks(n.sessions, states), Scanned(n, states), me);
    ScannedLast(n, states, me);
  }

  lemma ScannedLast(n: Node, states: seq<(Id, TransientState)>, me: Id)
    ensures LastOf(Scanned(n, states), me).Some? ==> LastOf(n.log.entries, me) == LastOf(Scanned(n, states), me)
  {
    var k := |n.log.entries| - |Scanned(n, states)|;
    assert Scanned(n, states) != [] ==> Scanned(n, states) == n.log.entries[k..];
    if LastOf(Scanned(n, states), me).Some? {
      LastOfSuffix(n.log.entries, k, me);
    }
  }

  lemma {:induction false} LastOfSuffix(entries: seq<Entry>, k: nat, me: Id)
    requires k <= |entries| && LastOf(entries[k..], me).Some?
    ensures LastOf(entries, me) == LastOf(entries[k..], me)
    decreases |entries|
  {
    var tail := entries[k..];
    assert tail[|tail| - 1] == entries[|entries| - 1];
    if entries[|entries| - 1].clientId != Some(me) {
      assert tail[..|tail| - 1] == entries[..|entries| - 1][k..];
      LastOfSuffix(entries[..|entries| - 1], k, me);
    }
  }

  //
  // What clients send after that
  //

  predicate Consecutive(messages: seq<Message>) {
    forall i :: 0 < i < |messages| ==> messages[i].id == messages[i - 1].id + 1
  }

  /** The client's ids in the log have no gaps and no duplicates, and end with the last one received. */
  ghost predicate Unbroken(n: Node, me: Id) {
    var mine := OfClient(n.log.entries, me);
    && mine != [] && Consecutive(mine)
    && mine[|mine| - 1].id == Lookup(n.sessions, me).lastReceived
  }

  /** Clients' entries are application entries. */
  predicate ClientsWrite(entries: seq<Entry>) {
    forall i :: 0 <= i < |entries| && entries[i].clientId.Some? ==> entries[i].value.Application?
  }

  lemma {:induction false} LastOfIsLast(entries: seq<Entry>, me: Id)
    requires ClientsWrite(entries)
    ensures var mine := OfClient(entries, me);
      if mine == [] then LastOf(entries, me).None?
      else LastOf(entries, me) == Some(mine[|mine| - 1].id)
    decreases |entries|
  {
    if entries != [] {
      var before, e := entries[..|entries| - 1], entries[|entries| - 1];
      LastOfIsLast(before, me);
      assert entries == before + [e];
      OfClientAppend(before, e, me);
    }
  }

  /** Whatever the client sends, its ids in the log stay unbroken. */
  lemma {:induction false} ReceivingStaysUnbroken(n: Node, me: Id, messages: seq<Message>)
    requires Unbroken(n, me)
    ensures Unbroken(ReceiveMessages(n, me, messages), me)
    decreases |messages|
  {
    if messages != [] {
      var s := Lookup(n.sessions, me);
      var n1 := n.(sessions := Put(n.sessions, s.Receive(messages[0].id)));
      if s.Expects(messages[0].id) {
        var e := Entry(n.term, Application(messages[0].bytes), Some(me), messages[0].id);
        var n2 := n1.(log := n1.log.Append(e));
        ExpectedStaysUnbroken(n, n2, me, e);
        ReceivingStaysUnbroken(n2, me, messages[1..]);
      } else {
        RefusedStaysUnbroken(n, n1, me, messages[0].id);
        ReceivingStaysUnbroken(n1, me, messages[1..]);
      }
    }
  }

  lemma ExpectedStaysUnbroken(n: Node, n': Node, me: Id, e: Entry)
    requires Unbroken(n, me) && e.value.Application? && e.clientId == Some(me)
    requires var s := Lookup(n.sessions, me);
      s.Expects(e.messageId) && n'.sessions == Put(n.sessions, s.Receive(e.messageId))
    requires n'.log == n.log.Append(e)
    ensures Unbroken(n', me)
  {
    LookupPut(n.sessions, Lookup(n.sessions, me).Receive(e.messageId), me);
    OfClientAppend(n.log.entries, e, me);
    OneMoreConsecutive(OfClient(n.log.entries, me), Part(e, me)[0]);
  }

  lemma OneMoreConsecutive(mine: seq<Message>, m: Message)
    requires mine != [] && Consecutive(mine) && m.id == mine[|mine| - 1].id + 1
    ensures Consecutive(mine + [m])
  {}

  lemma RefusedStaysUnbroken(n: Node, n': Node, me: Id, id: nat)
    requires Unbroken(n, me) && n'.log == n.log
    requires var s := Lookup(n.sessions, me); !s.Expects(id) && n'.sessions == Put(n.sessions, s.Receive(id))
    ensures Unbroken(n', me)
  {
    LookupPut(n.sessions, Lookup(n.sessions, me).Receive(id), me);
  }

  /**
   A new leader goes on where the old one stopped: for a client with an entry above the least known
   commit index, if its ids in the leader's log were consecutive, they stay so whatever it sends.
   */
  lemma NewLeaderGoesOn(n: Node, states: seq<(Id, TransientState)>, me: Id, messages: seq<Message>)
    requires ClientsWrite(n.log.entries) && Consecutive(OfClient(n.log.entries, me))
    requires LastOf(Scanned(n, states), me).Some?
    ensures Unbroken(ReceiveMessages(ApplyTransientStates(n, states), me, messages), me)
  {
    SessionsRebuilt(n, states, me);
    LastOfIsLast(n.log.entries, me);
    ReceivingStaysUnbroken(ApplyTransientStates(n, states), me, messages);
  }
}
