/**
 Sessions of different clients do not touch each other.
 */
module SessionFacts {
  import opened Types
  import opened Sessions

  lemma {:induction false} IndexOfPut(sessions: seq<Session>, i: nat, s: Session, me: Id)
    requires i < |sessions| && sessions[i].clientId == s.clientId
    ensures IndexOf(sessions[i := s], me) == IndexOf(sessions, me)
  {
    if i > 0 {
      IndexOfPut(sessions[1..], i - 1, s, me);
      assert sessions[i := s][1..] == sessions[1..][i - 1 := s];
    } else {
      assert sessions[i := s][1..] == sessions[1..];
    }
  }

  lemma {:induction false} IndexOfConcat(sessions: seq<Session>, s: Session, me: Id)
    ensures IndexOf(sessions + [s], me)
      == if IndexOf(sessions, me) < |sessions| || s.clientId == me then IndexOf(sessions, me)
         else |sessions| + 1
  {
    if sessions == [] {
      assert [s][1..] == [];
    } else {
      IndexOfConcat(sessions[1..], s, me);
      assert (sessions + [s])[1..] == sessions[1..] + [s];
    }
  }

  lemma LookupEnsure(sessions: seq<Session>, other: Id, me: Id)
    ensures Lookup(Ensure(sessions, other), me) == Lookup(sessions, me)
  {
    IndexOfConcat(sessions, NewSession(other), me);
  }

  /** Each client has its own session. */
  lemma LookupPut(sessions: seq<Session>, s: Session, me: Id)
    ensures Lookup(Put(sessions, s), me) == if s.clientId == me then s else Lookup(sessions, me)
  {
    var i := IndexOf(sessions, s.clientId);
    var ensured := Ensure(sessions, s.clientId);
    LookupEnsure(sessions, s.clientId, me);
    IndexOfConcat(sessions, NewSession(s.clientId), s.clientId);
    IndexOfConcat(sessions, NewSession(s.clientId), me);
    IndexOfPut(ensured, i, s, me);
  }

  lemma {:induction false} IndexOfClear(sessions: seq<Session>, me: Id)
    ensures IndexOf(ClearCommitted(sessions), me) == IndexOf(sessions, me)
  {
    if sessions != [] {
      IndexOfClear(sessions[1..], me);
    }
  }

  lemma LookupClear(sessions: seq<Session>, me: Id)
    ensures Lookup(ClearCommitted(sessions), me) == Lookup(sessions, me).(committed := false)
  {
    IndexOfClear(sessions, me);
  }
}
