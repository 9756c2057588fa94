/**
 A run that shows why leader completeness is about own-term commits.
 */
module OlderTerms {
  import opened Types
  import opened Log
  import opened Handlers
  import Core
  import opened Group
  import opened Safety
  import opened Scenarios
  import opened Departures

  lemma ExtendsTrans(t1: Trace, t2: Trace, t3: Trace)
    requires Extends(t1, t2) && Extends(t2, t3)
    ensures Extends(t1, t3)
  {}

  /** A server that has led a term before, of which it has matched nothing. */
  function Was(term: nat, log: seq<Entry>, next: nat): Brief {
    Brief(term, Follower, log, 0, 0, [], [Track(next, 0, 1), Track(next, 0, 1)])
  }

  function Leads(term: nat, log: seq<Entry>, next: nat): Brief {
    Led(term, log, [Track(next, 0, 1), Track(next, 0, 1)])
  }

  /** An election among three by a server that has committed nothing. */
  lemma NextLeader(t: Trace, bs: seq<Brief>, i: nat, term: nat, log: seq<Entry>, next: nat, voter: Brief)
    returns (t': Trace, a: nat)
    requires At(t, bs) && |bs| == 3 && i < 3 && i != 1 && bs[i] == Was(term, log, next)
    requires bs[1] == voter && voter.term == term && Core.UpToDate(log, voter.log)
    ensures At(t', bs[1 := Voted(voter, term + 1)][i := Leads(term + 1, log + [C(term + 1)], |log| + 2)])
    ensures Extends(t, t') && WonAt(t', bs, i, bs[i], a)
    ensures MatchesNothing(t'.states[a].nodes[i].peers)
  {
    t', a := Elect3(t, bs, i, 1);
    assert WithNext(bs[i].tracks, |log| + 2) == [Track(|log| + 2, 0, 1), Track(|log| + 2, 0, 1)];
    assert Won(bs[i], 3) == Leads(term + 1, log + [C(term + 1)], |log| + 2);
    forall k | 0 <= k < |t'.states[a].nodes[i].peers| ensures t'.states[a].nodes[i].peers[k].matched == 0 {
      assert TracksOf(t'.states[a].nodes[i].peers)[k].matched == 0;
    }
  }

  /** Servers 0 and 2 lead terms 1 and 2 with nothing but their own configuration. */
  lemma TwoLogs() returns (t: Trace)
    ensures At(t, [Leads(1, [C(1)], 2), New(2, []), Leads(2, [C(2)], 2)])
    ensures AskVote(0, RequestFrom(2, Standing(New(1, [])), false)) in t.Last().net
  {
    var t0 := StartOf3();
    var bs0 := [New(0, []), New(0, []), New(0, [])];
    var t1, a1 := NextLeader(t0, bs0, 0, 0, [], 1, New(0, []));
    assert [] + [C(1)] == [C(1)];
    var bs1 := [Leads(1, [C(1)], 2), New(1, []), New(0, [])];
    assert bs0[1 := New(1, [])][0 := Leads(1, [C(1)], 2)] == bs1;
    t := SecondLog(t1, bs1);
  }

  lemma SecondLog(t: Trace, bs: seq<Brief>) returns (t': Trace)
    requires bs == [Leads(1, [C(1)], 2), New(1, []), New(0, [])] && At(t, bs)
    requires AskVote(2, RequestFrom(0, Standing(New(0, [])), false)) in t.Last().net
    ensures At(t', [Leads(1, [C(1)], 2), New(2, []), Leads(2, [C(2)], 2)])
    ensures AskVote(0, RequestFrom(2, Standing(New(1, [])), false)) in t'.Last().net
  {
    var t1 := Hears(t, bs, 2, RequestFrom(0, Standing(New(0, [])), false));
    var bs1 := [Leads(1, [C(1)], 2), New(1, []), New(1, [])];
    assert bs[2 := New(1, [])] == bs1;
    var a;
    t', a := NextLeader(t1, bs1, 2, 1, [], 1, New(1, []));
    assert [] + [C(2)] == [C(2)];
    assert bs1[1 := New(2, [])][2 := Leads(2, [C(2)], 2)]
      == [Leads(1, [C(1)], 2), New(2, []), Leads(2, [C(2)], 2)];
  }

  /** Server 0 leads again, in term 3. */
  lemma ThirdTerm() returns (t: Trace, a: nat)
    ensures At(t, [Leads(3, [C(1), C(3)], 3), New(3, []), Leads(2, [C(2)], 2)])
    ensures a + 1 < |t.states| && FreshElection(t.states, a, 0, 3)
    ensures AskVote(2, RequestFrom(0, Standing(Was(2, [C(1)], 2)), false)) in t.Last().net
  {
    var t0 := TwoLogs();
    var bs0 := [Leads(1, [C(1)], 2), New(2, []), Leads(2, [C(2)], 2)];
    var t1 := Hears(t0, bs0, 0, RequestFrom(2, Standing(New(1, [])), false));
    var bs1 := [Was(2, [C(1)], 2), New(2, []), Leads(2, [C(2)], 2)];
    assert bs0[0 := Was(2, [C(1)], 2)] == bs1;
    t, a := NextLeader(t1, bs1, 0, 2, [C(1)], 2, New(2, []));
    assert [C(1)] + [C(3)] == [C(1), C(3)];
    assert bs1[1 := New(3, [])][0 := Leads(3, [C(1), C(3)], 3)]
      == [Leads(3, [C(1), C(3)], 3), New(3, []), Leads(2, [C(2)], 2)];
  }

  /** Server 1 takes the first entry of server 0, but not the second. */
  lemma TakesFirst(t: Trace) returns (t': Trace)
    requires At(t, [Leads(3, [C(1), C(3)], 3), New(3, []), Leads(2, [C(2)], 2)])
    ensures At(t', [Led(3, [C(1), C(3)], [Track(1, 0, 1), Track(3, 0, 1)]), New(3, [C(1)]), Leads(2, [C(2)], 2)])
    ensures AnswerAppend(0, AppendResponse(1, true, 3, 2, false)) in t'.Last().net
    ensures Extends(t, t') && t.Last().net <= t'.Last().net
  {
    var l := Leads(3, [C(1), C(3)], 3);
    var bs := [l, New(3, []), Leads(2, [C(2)], 2)];
    var t1 := BackToStart(t, bs, 0, 1);
    var l1 := Led(3, [C(1), C(3)], [Track(1, 0, 1), Track(3, 0, 1)]);
    assert StartingAt(0, l, 1) == l1;
    var bs1 := [l1, New(3, []), Leads(2, [C(2)], 2)];
    assert bs[1 := Voted(bs[1], 3)][0 := l1] == bs1;
    t' := TakesFirstOf(t1, bs1, l1);
    ExtendsTrans(t, t1, t');
  }

  lemma TakesFirstOf(t: Trace, bs: seq<Brief>, l: Brief) returns (t': Trace)
    requires l == Led(3, [C(1), C(3)], [Track(1, 0, 1), Track(3, 0, 1)])
    requires bs == [l, New(3, []), Leads(2, [C(2)], 2)] && At(t, bs)
    ensures At(t', [l, New(3, [C(1)]), Leads(2, [C(2)], 2)])
    ensures AnswerAppend(0, AppendResponse(1, true, 3, 2, false)) in t'.Last().net
    ensures Extends(t, t') && t.Last().net <= t'.Last().net
  {
    var ask := AskOf(0, l, 1, 1);
    assert ask.entries == [C(1)];
    MergesAll([], 0, [C(1)]);
    assert [] + [C(1)] == [C(1)];
    TakesNothing(New(3, []), ask, [C(1)]);
    t' := Taken(t, bs, 0, 1, 1);
    assert bs[1 := New(3, [C(1)])] == [l, New(3, [C(1)]), Leads(2, [C(2)], 2)];
  }

  /** The leader of term 3 once it has committed the entry of term 1. */
  function Committer(): Brief {
    Brief(3, Leader, [C(1), C(3)], 1, 1, [Applied(1, C(1).value)], [Track(2, 1, 1), Track(3, 0, 1)])
  }

  lemma CommitsFirst(t: Trace) returns (t': Trace)
    requires At(t, [Led(3, [C(1), C(3)], [Track(1, 0, 1), Track(3, 0, 1)]), New(3, [C(1)]), Leads(2, [C(2)], 2)])
    requires AnswerAppend(0, AppendResponse(1, true, 3, 2, false)) in t.Last().net
    ensures At(t', [Committer(), New(3, [C(1)]), Leads(2, [C(2)], 2)])
    ensures |t'.events| == |t.events| + 1 && t'.states[|t.events|] == t.Last()
    ensures CommitsAt(t'.states, t'.events, |t.events|, 0, 1)
    ensures Extends(t, t') && t.Last().net <= t'.Last().net
  {
    var l := Led(3, [C(1), C(3)], [Track(1, 0, 1), Track(3, 0, 1)]);
    var bs := [l, New(3, [C(1)]), Leads(2, [C(2)], 2)];
    assert MatchedBy(0, l, 1, 2).tracks == [Track(2, 1, 1), Track(3, 0, 1)];
    Reached3(2, Track(2, 1, 1), Track(3, 0, 1));
    Median3(2, 1, 0, 1);
    t' := HearsAcceptance(t, bs, 0, 1, 2, 1);
    assert HandOver(0, 1, [C(1), C(3)]) == [Applied(1, C(1).value)];
    assert Committing(MatchedBy(0, l, 1, 2), 1) == Committer();
    assert bs[0 := Committer()] == [Committer(), New(3, [C(1)]), Leads(2, [C(2)], 2)];
  }

  /** Server 2, whose last entry is newer than that of server 1, leads term 4. */
  lemma FourthTerm(t: Trace) returns (t': Trace)
    requires At(t, [Committer(), New(3, [C(1)]), Leads(2, [C(2)], 2)])
    requires AskVote(2, RequestFrom(0, Standing(Was(2, [C(1)], 2)), false)) in t.Last().net
    ensures At(t', [Committer(), New(4, [C(1)]), Leads(4, [C(2), C(4)], 3)]) && Extends(t, t')
  {
    var bs := [Committer(), New(3, [C(1)]), Leads(2, [C(2)], 2)];
    var t1 := Hears(t, bs, 2, RequestFrom(0, Standing(Was(2, [C(1)], 2)), false));
    var bs1 := [Committer(), New(3, [C(1)]), Was(3, [C(2)], 2)];
    assert bs[2 := Was(3, [C(2)], 2)] == bs1;
    var a;
    t', a := NextLeader(t1, bs1, 2, 3, [C(2)], 2, New(3, [C(1)]));
    assert [C(2)] + [C(4)] == [C(2), C(4)];
    assert bs1[1 := New(4, [C(1)])][2 := Leads(4, [C(2), C(4)], 3)]
      == [Committer(), New(4, [C(1)]), Leads(4, [C(2), C(4)], 3)];
    ExtendsTrans(t, t1, t');
  }

  /**
   A run whose leaders were voted for, in which a leader whose peers matched nothing at its election
   commits an entry of an older term, and the leader of a later term does not have that entry.
   */
  lemma OlderTermCommitLost() returns (states: seq<Group>, events: seq<Event>, a: nat, k: nat)
    ensures VotedRun(states, events) && a < k < |events|
    ensures 2 < |states[k].nodes| && 2 < |states[|events|].nodes|
    ensures FreshElection(states, a, 0, states[k].nodes[0].term)
    ensures CommitsAt(states, events, k, 0, 1)
    ensures var n, m := states[k].nodes[0], states[|events|].nodes[2];
      && |n.log.entries| == 2 && n.log.entries[0].term < n.term
      && m.role == Leader && m.term > n.term && !(n.log.entries[..1] <= m.log.entries)
  {
    var t1, a1 := ThirdTerm();
    var t2 := TakesFirst(t1);
    var t3 := CommitsFirst(t2);
    var t4 := FourthTerm(t3);
    var l := Led(3, [C(1), C(3)], [Track(1, 0, 1), Track(3, 0, 1)]);
    Sound(t2, [l, New(3, [C(1)]), Leads(2, [C(2)], 2)], 0);
    Sound(t4, [Committer(), New(4, [C(1)]), Leads(4, [C(2), C(4)], 3)], 2);
    assert [C(1), C(3)][..1] == [C(1)];
    states, events, a, k := t4.states, t4.events, a1, |t2.events|;
    CommitsStill(t3, t4, k, 0, 1);
  }

  lemma CommitsStill(t: Trace, t': Trace, k: nat, i: nat, index: nat)
    requires Extends(t, t') && |t.states| == |t.events| + 1 && |t'.states| == |t'.events| + 1
    requires k < |t.events| && CommitsAt(t.states, t.events, k, i, index)
    ensures CommitsAt(t'.states, t'.events, k, i, index) && t'.states[k] == t.states[k]
  {}
}
