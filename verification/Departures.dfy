/**
 Runs that show what the safety theorems need: in each every leader was voted for, and still a hypothesis
 of a theorem fails and its conclusion with it.
 */
module Departures {
  import opened Types
  import opened Log
  import opened Handlers
  import opened NodeFacts
  import opened Merges
  import opened Medians
  import opened Group
  import opened Safety
  import opened Applying
  import opened Scenarios

  //
  // Small logs and medians
  //

  /** A batch whose terms the log already has leaves it as it is. */
  lemma MergesNothing(log: seq<Entry>, at: nat, batch: seq<Entry>)
    requires at + |batch| <= |log| && forall i :: 0 <= i < |batch| ==> log[at + i].term == batch[i].term
    ensures MergeAt(log, at, batch) == log
  {
    AgreementIs(log[at..], batch, |batch|);
  }

  /** A batch that conflicts at once, or lies at the end of the log, replaces all from there on. */
  lemma MergesAll(log: seq<Entry>, at: nat, batch: seq<Entry>)
    requires at <= |log| && batch != [] && (at < |log| ==> log[at].term != batch[0].term)
    ensures MergeAt(log, at, batch) == log[..at] + batch
  {
    AgreementIs(log[at..], batch, 0);
  }

  lemma MedianIs(s: seq<nat>, index: nat)
    requires s != [] && 2 * Count(s, index) > |s| && 2 * Count(s, index + 1) <= |s|
    ensures Median(s) == index
  {
    MedianIsLargestMajority(s, index);
    MedianIsLargestMajority(s, index + 1);
  }

  lemma Count2(a: nat, b: nat, index: nat)
    ensures Count([a, b], index) == (if a >= index then 1 else 0) + (if b >= index then 1 else 0)
  {
    assert [a, b][1..] == [b];
    assert [b][1..] == [];
  }

  lemma Count3(a: nat, b: nat, c: nat, index: nat)
    ensures Count([a, b, c], index)
      == (if a >= index then 1 else 0) + (if b >= index then 1 else 0) + (if c >= index then 1 else 0)
  {
    assert [a, b, c][1..] == [b, c];
    Count2(b, c, index);
  }

  lemma Median3(a: nat, b: nat, c: nat, index: nat)
    requires (a == index && (b <= index <= c || c <= index <= b))
          || (b == index && (a <= index <= c || c <= index <= a))
          || (c == index && (a <= index <= b || b <= index <= a))
    ensures Median([a, b, c]) == index
  {
    Count3(a, b, c, index);
    Count3(a, b, c, index + 1);
    MedianIs([a, b, c], index);
  }

  lemma Reached3(log: nat, x: Track, y: Track)
    ensures [log] + MatchedOf([x, y]) == [log, x.matched, y.matched]
  {
    assert [x, y][1..] == [y] && [y][1..] == [];
  }

  //
  // A follower commits what it did not verify
  //

  function C(term: nat): Entry {
    Configured(term, 3)
  }

  function New(term: nat, log: seq<Entry>): Brief {
    Brief(term, Follower, log, 0, 0, [], [Track(1, 0, 1), Track(1, 0, 1)])
  }

  function Led(term: nat, log: seq<Entry>, tracks: seq<Track>): Brief {
    Brief(term, Leader, log, 0, 0, [], tracks)
  }

  lemma StartOf3() returns (t: Trace)
    ensures At(t, [New(0, []), New(0, []), New(0, [])])
  {
    t := Start(3);
    assert NewTracks(3) == [Track(1, 0, 1), Track(1, 0, 1)];
    assert NewBrief(3) == New(0, []);
    assert seq(3, i requires 0 <= i < 3 => NewBrief(3)) == [New(0, []), New(0, []), New(0, [])];
  }

  /** Server 0 leads term 1 and appends its configuration. */
  lemma FirstLeader(t: Trace) returns (t': Trace)
    requires At(t, [New(0, []), New(0, []), New(0, [])])
    ensures At(t', [Led(1, [C(1)], [Track(2, 0, 1), Track(2, 0, 1)]), New(1, []), New(0, [])]) && Extends(t, t')
  {
    var bs := [New(0, []), New(0, []), New(0, [])];
    var a;
    t', a := Elect3(t, bs, 0, 1);
    assert [] + [C(1)] == [C(1)];
    assert WithNext(bs[0].tracks, 2) == [Track(2, 0, 1), Track(2, 0, 1)];
    assert Won(bs[0], 3) == Led(1, [C(1)], [Track(2, 0, 1), Track(2, 0, 1)]);
    assert bs[1 := Voted(bs[1], 1)][0 := Won(bs[0], 3)]
      == [Led(1, [C(1)], [Track(2, 0, 1), Track(2, 0, 1)]), New(1, []), New(0, [])];
  }

  /** What server 0 knows once it had to go back to the start of server 2's log. */
  function Back(): seq<Track> {
    [Track(2, 0, 1), Track(1, 0, 1)]
  }

  lemma FirstRefusal(t: Trace) returns (t': Trace)
    requires At(t, [Led(1, [C(1)], [Track(2, 0, 1), Track(2, 0, 1)]), New(1, []), New(0, [])])
    ensures At(t', [Led(1, [C(1)], Back()), New(1, []), New(1, [])]) && Extends(t, t')
  {
    var l0 := Led(1, [C(1)], [Track(2, 0, 1), Track(2, 0, 1)]);
    var bs := [l0, New(1, []), New(0, [])];
    t' := BackToStart(t, bs, 0, 2);
    var l1 := Led(1, [C(1)], Back());
    assert StartingAt(0, l0, 2) == l1;
    assert bs[2 := Voted(bs[2], 1)][0 := l1] == [l1, New(1, []), New(1, [])];
  }

  /** Server 2 takes the first entry, of which server 0 does not hear. */
  lemma FirstFollower(t: Trace) returns (t': Trace)
    requires At(t, [Led(1, [C(1)], Back()), New(1, []), New(1, [])])
    ensures At(t', [Led(1, [C(1)], Back()), New(1, []), New(1, [C(1)])]) && Extends(t, t')
  {
    var l1 := Led(1, [C(1)], Back());
    var bs := [l1, New(1, []), New(1, [])];
    FirstEntry(l1);
    t' := Taken(t, bs, 0, 2, 1);
    assert bs[2 := New(1, [C(1)])] == [l1, New(1, []), New(1, [C(1)])];
  }

  /** Server 0 appends a message of a client. */
  lemma FirstMessage(t: Trace) returns (t': Trace, e: Entry)
    requires At(t, [Led(1, [C(1)], Back()), New(1, []), New(1, [C(1)])])
    ensures e.term == 1 && e.value == Application([1]) && Extends(t, t')
    ensures At(t', [Led(1, [C(1), e], Back()), New(1, []), New(1, [C(1)])])
  {
    var bs := [Led(1, [C(1)], Back()), New(1, []), New(1, [C(1)])];
    t', e := Publishes(t, bs, 0, [1]);
    assert [C(1)] + [e] == [C(1), e];
    assert bs[0 := Led(1, [C(1), e], Back())] == [Led(1, [C(1), e], Back()), New(1, []), New(1, [C(1)])];
  }

  lemma FirstEntry(l1: Brief)
    requires l1 == Led(1, [C(1)], Back())
    ensures AskOf(0, l1, 2, 1).lastLogIndex == 0
    ensures Took(New(1, []), AskOf(0, l1, 2, 1)) == New(1, [C(1)])
  {
    var ask := AskOf(0, l1, 2, 1);
    assert ask.entries == [C(1)];
    MergesAll([], 0, [C(1)]);
    assert [] + [C(1)] == [C(1)];
    TakesNothing(New(1, []), ask, [C(1)]);
  }

  /** A request with commit index 0 commits nothing at a server that has nothing to commit. */
  lemma TakesNothing(b: Brief, request: AppendRequest, log: seq<Entry>)
    requires b.quick == b.commit == 0 && b.machine == [] && request.commitIndex == 0
    requires request.lastLogIndex <= |b.log| && MergeAt(b.log, request.lastLogIndex, request.entries) == log
    ensures Took(b, request) == b.(term := request.term, role := Follower, log := log)
  {
    assert HandOver(0, 0, log) == [];
  }

  /** Server 2 leads term 2, which server 0 has not heard of. */
  lemma SecondLeader(t: Trace, e: Entry) returns (t': Trace)
    requires At(t, [Led(1, [C(1), e], Back()), New(1, []), New(1, [C(1)])])
    ensures At(t', [Led(1, [C(1), e], Back()), New(2, []),
                    Led(2, [C(1), C(2)], [Track(3, 0, 1), Track(3, 0, 1)])])
    ensures Extends(t, t')
  {
    var bs := [Led(1, [C(1), e], Back()), New(1, []), New(1, [C(1)])];
    var a;
    t', a := Elect3(t, bs, 2, 1);
    assert [C(1)] + [C(2)] == [C(1), C(2)];
    assert WithNext(bs[2].tracks, 3) == [Track(3, 0, 1), Track(3, 0, 1)];
    assert Won(bs[2], 3) == Led(2, [C(1), C(2)], [Track(3, 0, 1), Track(3, 0, 1)]);
    assert bs[1 := Voted(bs[1], 2)][2 := Won(bs[2], 3)]
      == [Led(1, [C(1), e], Back()), New(2, []), Led(2, [C(1), C(2)], [Track(3, 0, 1), Track(3, 0, 1)])];
  }

  lemma SecondRefusal(t: Trace, e: Entry) returns (t': Trace)
    requires At(t, [Led(1, [C(1), e], Back()), New(2, []),
                    Led(2, [C(1), C(2)], [Track(3, 0, 1), Track(3, 0, 1)])])
    ensures At(t', [Led(1, [C(1), e], Back()), New(2, []),
                    Led(2, [C(1), C(2)], [Track(3, 0, 1), Track(1, 0, 1)])])
    ensures Extends(t, t')
  {
    var l := Led(2, [C(1), C(2)], [Track(3, 0, 1), Track(3, 0, 1)]);
    var bs := [Led(1, [C(1), e], Back()), New(2, []), l];
    t' := BackToStart(t, bs, 2, 1);
    var l1 := Led(2, [C(1), C(2)], [Track(3, 0, 1), Track(1, 0, 1)]);
    assert StartingAt(2, l, 1) == l1;
    assert bs[1 := Voted(bs[1], 2)][2 := l1] == [Led(1, [C(1), e], Back()), New(2, []), l1];
  }

  /** Server 1 takes the log of server 2, which commits it. */
  lemma SecondFollower(t: Trace, e: Entry) returns (t': Trace)
    requires At(t, [Led(1, [C(1), e], Back()), New(2, []),
                    Led(2, [C(1), C(2)], [Track(3, 0, 1), Track(1, 0, 1)])])
    ensures At(t', [Led(1, [C(1), e], Back()), New(2, [C(1), C(2)]),
                    Led(2, [C(1), C(2)], [Track(3, 0, 1), Track(1, 0, 1)])])
    ensures AnswerAppend(2, AppendResponse(1, true, 2, 3, false)) in t'.Last().net
    ensures Extends(t, t')
  {
    var l := Led(2, [C(1), C(2)], [Track(3, 0, 1), Track(1, 0, 1)]);
    var bs := [Led(1, [C(1), e], Back()), New(2, []), l];
    WholeLog(l);
    t' := Taken(t, bs, 2, 1, 2);
    assert bs[1 := New(2, [C(1), C(2)])] == [Led(1, [C(1), e], Back()), New(2, [C(1), C(2)]), l];
  }

  lemma WholeLog(l: Brief)
    requires l == Led(2, [C(1), C(2)], [Track(3, 0, 1), Track(1, 0, 1)])
    ensures AskOf(2, l, 1, 2).lastLogIndex == 0 && |AskOf(2, l, 1, 2).entries| == 2
    ensures Took(New(2, []), AskOf(2, l, 1, 2)) == New(2, [C(1), C(2)])
  {
    var ask := AskOf(2, l, 1, 2);
    assert ask.entries == [C(1), C(2)];
    MergesAll([], 0, ask.entries);
    assert [] + ask.entries == [C(1), C(2)];
    TakesNothing(New(2, []), ask, [C(1), C(2)]);
  }

  /** The leader of term 2 once it has committed both entries of its log. */
  function Second(tracks: seq<Track>): Brief {
    Brief(2, Leader, [C(1), C(2)], 2, 2, [Applied(1, C(1).value), Applied(2, C(2).value)], tracks)
  }

  lemma SecondCommit(t: Trace, e: Entry) returns (t': Trace)
    requires At(t, [Led(1, [C(1), e], Back()), New(2, [C(1), C(2)]),
                    Led(2, [C(1), C(2)], [Track(3, 0, 1), Track(1, 0, 1)])])
    requires AnswerAppend(2, AppendResponse(1, true, 2, 3, false)) in t.Last().net
    ensures At(t', [Led(1, [C(1), e], Back()), New(2, [C(1), C(2)]), Second([Track(3, 0, 1), Track(3, 2, 1)])])
    ensures Extends(t, t')
  {
    var l := Led(2, [C(1), C(2)], [Track(3, 0, 1), Track(1, 0, 1)]);
    var bs := [Led(1, [C(1), e], Back()), New(2, [C(1), C(2)]), l];
    assert MatchedBy(2, l, 1, 3).tracks == [Track(3, 0, 1), Track(3, 2, 1)];
    Reached3(2, Track(3, 0, 1), Track(3, 2, 1));
    Median3(2, 0, 2, 2);
    t' := HearsAcceptance(t, bs, 2, 1, 3, 2);
    assert HandOver(0, 2, [C(1), C(2)]) == [Applied(1, C(1).value), Applied(2, C(2).value)];
    assert Committing(MatchedBy(2, l, 1, 3), 2) == Second([Track(3, 0, 1), Track(3, 2, 1)]);
    assert bs[2 := Second([Track(3, 0, 1), Track(3, 2, 1)])]
      == [Led(1, [C(1), e], Back()), New(2, [C(1), C(2)]), Second([Track(3, 0, 1), Track(3, 2, 1)])];
  }

  /** Server 0 as a follower of term 2, with its message still in its log. */
  function Astray(e: Entry): Brief {
    Brief(2, Follower, [C(1), e], 0, 0, [], Back())
  }

  lemma ThirdRefusal(t: Trace, e: Entry) returns (t': Trace)
    requires e.term == 1
    requires At(t, [Led(1, [C(1), e], Back()), New(2, [C(1), C(2)]), Second([Track(3, 0, 1), Track(3, 2, 1)])])
    ensures At(t', [Astray(e), New(2, [C(1), C(2)]), Second([Track(3, 0, 1), Track(3, 2, 1)])])
    ensures AnswerAppend(2, AppendResponse(0, false, 2, 3, false)) in t'.Last().net
    ensures Extends(t, t')
  {
    var bs := [Led(1, [C(1), e], Back()), New(2, [C(1), C(2)]), Second([Track(3, 0, 1), Track(3, 2, 1)])];
    assert bs[2].log[..2] == [C(1), C(2)];
    t' := Refused(t, bs, 2, 0);
    assert bs[0 := Astray(e)] == [Astray(e), bs[1], bs[2]];
  }

  /** The leader hears the same refusal twice, and goes back twice. */
  lemma HeardTwice(t: Trace, e: Entry) returns (t': Trace)
    requires At(t, [Astray(e), New(2, [C(1), C(2)]), Second([Track(3, 0, 1), Track(3, 2, 1)])])
    requires AnswerAppend(2, AppendResponse(0, false, 2, 3, false)) in t.Last().net
    ensures At(t', [Astray(e), New(2, [C(1), C(2)]), Second([Track(1, 0, 1), Track(3, 2, 1)])])
    ensures Extends(t, t')
  {
    var bs := [Astray(e), New(2, [C(1), C(2)]), Second([Track(3, 0, 1), Track(3, 2, 1)])];
    var t1 := HearsRefusal(t, bs, 2, 0, 3);
    var bs1 := [Astray(e), New(2, [C(1), C(2)]), Second([Track(2, 0, 2), Track(3, 2, 1)])];
    assert [Track(3, 0, 1), Track(3, 2, 1)][0 := Track(2, 0, 2)] == [Track(2, 0, 2), Track(3, 2, 1)];
    assert bs[2 := Second([Track(2, 0, 2), Track(3, 2, 1)])] == bs1;
    t' := HeardAgain(t1, bs1);
    assert bs1[2 := Second([Track(1, 0, 1), Track(3, 2, 1)])]
      == [Astray(e), New(2, [C(1), C(2)]), Second([Track(1, 0, 1), Track(3, 2, 1)])];
  }

  lemma HeardAgain(t: Trace, bs: seq<Brief>) returns (t': Trace)
    requires At(t, bs) && |bs| == 3 && bs[2] == Second([Track(2, 0, 2), Track(3, 2, 1)])
    requires AnswerAppend(2, AppendResponse(0, false, 2, 3, false)) in t.Last().net
    ensures At(t', bs[2 := Second([Track(1, 0, 1), Track(3, 2, 1)])]) && Extends(t, t')
  {
    t' := HearsRefusal(t, bs, 2, 0, 3);
    assert [Track(2, 0, 2), Track(3, 2, 1)][0 := Track(1, 0, 1)] == [Track(1, 0, 1), Track(3, 2, 1)];
  }

  /** Server 0 once it has committed its message, which the leader of term 2 does not have. */
  function Mistaken(log: seq<Entry>, e: Entry): Brief {
    Brief(2, Follower, log, 2, 2, [Applied(1, C(1).value), Applied(2, e.value)], Back())
  }

  /** The request that verifies the first entry only. */
  function Short(): AppendRequest {
    AppendRequest(2, 2, 0, 0, 2, [C(1)], None)
  }

  lemma ShortIs(l: Brief, e: Entry)
    requires l == Second([Track(1, 0, 1), Track(3, 2, 1)])
    ensures AskOf(2, l, 0, 1) == Short()
    ensures Took(Astray(e), Short()) == Mistaken([C(1), e], e)
  {
    assert AskOf(2, l, 0, 1).entries == [C(1)];
    MergesNothing([C(1), e], 0, [C(1)]);
    assert HandOver(0, 2, [C(1), e]) == [Applied(1, C(1).value), Applied(2, e.value)];
    assert [] + HandOver(0, 2, [C(1), e]) == HandOver(0, 2, [C(1), e]);
  }

  lemma CommitsAstray(t: Trace, e: Entry) returns (t': Trace)
    requires At(t, [Astray(e), New(2, [C(1), C(2)]), Second([Track(1, 0, 1), Track(3, 2, 1)])])
    ensures At(t', [Mistaken([C(1), e], e), New(2, [C(1), C(2)]), Second([Track(1, 0, 1), Track(3, 2, 1)])])
    ensures AnswerAppend(2, AppendResponse(0, true, 2, 2, false)) in t'.Last().net
    ensures Extends(t, t')
    ensures TakenAt(t', SendAppend(2, 0, 3, 1), 0, Astray(e), Short(), |t.events|)
  {
    var bs := [Astray(e), New(2, [C(1), C(2)]), Second([Track(1, 0, 1), Track(3, 2, 1)])];
    ShortIs(bs[2], e);
    t' := Taken(t, bs, 2, 0, 1);
    assert bs[0 := Mistaken([C(1), e], e)] == [Mistaken([C(1), e], e), bs[1], bs[2]];
  }

  /** The run up to where server 0 follows the leader of term 2, which went back too far. */
  lemma UpToAstray() returns (t: Trace, e: Entry)
    ensures e.term == 1 && e.value == Application([1])
    ensures At(t, [Astray(e), New(2, [C(1), C(2)]), Second([Track(1, 0, 1), Track(3, 2, 1)])])
  {
    var t1 := StartOf3();
    var t2 := FirstLeader(t1);
    var t3 := FirstRefusal(t2);
    var t4 := FirstFollower(t3);
    var t5;
    t5, e := FirstMessage(t4);
    t := OnToAstray(t5, e);
  }

  lemma OnToAstray(t5: Trace, e: Entry) returns (t: Trace)
    requires e.term == 1 && At(t5, [Led(1, [C(1), e], Back()), New(1, []), New(1, [C(1)])])
    ensures At(t, [Astray(e), New(2, [C(1), C(2)]), Second([Track(1, 0, 1), Track(3, 2, 1)])])
  {
    var t6 := SecondLeader(t5, e);
    var t7 := SecondRefusal(t6, e);
    var t8 := SecondFollower(t7, e);
    var t9 := SecondCommit(t8, e);
    var t10 := ThirdRefusal(t9, e);
    t := HeardTwice(t10, e);
  }

  /** In step `s` a leader sends a request for one entry, and its receiver commits two. */
  ghost predicate CommitsTooFar(states: seq<Group>, events: seq<Event>, s: nat, request: AppendRequest)
    requires |states| == |events| + 1 && s + 1 < |events|
  {
    && events[s].SendAppend? && events[s].i == request.serverId && events[s].batch == 1
    && events[s + 1] == ReceiveAppendRequest(AskAppend(0, request)) && Verified(request) == 1
    && 0 < |states[s + 1].nodes| && 0 < |states[s + 2].nodes|
    && var n, r := states[s + 1].nodes[0], states[s + 2].nodes[0];
    && Accepting(n, request)
    && n.commitIndex == 0 && r.commitIndex == 2
    && |r.log.entries| == 2 && r.log.entries[1].term < request.term
  }

  lemma AstrayAt(t: Trace, e: Entry, s: nat)
    requires e.term == 1 && TakenAt(t, SendAppend(2, 0, 3, 1), 0, Astray(e), Short(), s)
    ensures CommitsTooFar(t.states, t.events, s, Short())
  {
    ShortIs(Second([Track(1, 0, 1), Track(3, 2, 1)]), e);
  }

  /**
   A run whose leaders were voted for, in which a leader sends a request for one entry, and the follower
   that accepts it commits two, the second of an older term, which the leader does not have: a refusal
   that arrived twice had sent the leader back too far.
   */
  lemma FollowerCommitsUnverified() returns (states: seq<Group>, events: seq<Event>, s: nat)
    ensures VotedRun(states, events) && s + 1 < |events| && CommitsTooFar(states, events, s, Short())
  {
    var t, e := UpToAstray();
    var t' := CommitsAstray(t, e);
    s := |t.events|;
    AstrayAt(t', e, s);
    states, events := t'.states, t'.events;
  }

  lemma AnswersShort(t: Trace, e: Entry) returns (t': Trace)
    requires At(t, [Mistaken([C(1), e], e), New(2, [C(1), C(2)]), Second([Track(1, 0, 1), Track(3, 2, 1)])])
    requires AnswerAppend(2, AppendResponse(0, true, 2, 2, false)) in t.Last().net
    ensures At(t', [Mistaken([C(1), e], e), New(2, [C(1), C(2)]), Second([Track(2, 1, 1), Track(3, 2, 1)])])
  {
    var l := Second([Track(1, 0, 1), Track(3, 2, 1)]);
    var bs := [Mistaken([C(1), e], e), New(2, [C(1), C(2)]), l];
    assert MatchedBy(2, l, 0, 2).tracks == [Track(2, 1, 1), Track(3, 2, 1)];
    Reached3(2, Track(2, 1, 1), Track(3, 2, 1));
    Median3(2, 1, 2, 2);
    t' := HearsAcceptance(t, bs, 2, 0, 2, 2);
    assert HandOver(2, 2, [C(1), C(2)]) == [];
    assert Committing(MatchedBy(2, l, 0, 2), 2) == Second([Track(2, 1, 1), Track(3, 2, 1)]);
    assert bs[2 := Second([Track(2, 1, 1), Track(3, 2, 1)])]
      == [bs[0], bs[1], Second([Track(2, 1, 1), Track(3, 2, 1)])];
  }

  lemma Corrected(t: Trace, e: Entry) returns (t': Trace)
    requires e.term == 1
    requires At(t, [Mistaken([C(1), e], e), New(2, [C(1), C(2)]), Second([Track(2, 1, 1), Track(3, 2, 1)])])
    ensures At(t', [Mistaken([C(1), C(2)], e), New(2, [C(1), C(2)]), Second([Track(2, 1, 1), Track(3, 2, 1)])])
  {
    var l := Second([Track(2, 1, 1), Track(3, 2, 1)]);
    var bs := [Mistaken([C(1), e], e), New(2, [C(1), C(2)]), l];
    Corrects(l, e);
    t' := Taken(t, bs, 2, 0, 1);
    assert bs[0 := Mistaken([C(1), C(2)], e)] == [Mistaken([C(1), C(2)], e), bs[1], bs[2]];
  }

  lemma Corrects(l: Brief, e: Entry)
    requires l == Second([Track(2, 1, 1), Track(3, 2, 1)]) && e.term == 1
    ensures FitsIn([C(1), e], AskOf(2, l, 0, 1))
    ensures Took(Mistaken([C(1), e], e), AskOf(2, l, 0, 1)) == Mistaken([C(1), C(2)], e)
  {
    var ask := AskOf(2, l, 0, 1);
    assert ask.entries == [C(2)] && l.log[..1] == [C(1)];
    MergesAll([C(1), e], 1, [C(2)]);
    assert [C(1), e][..1] + [C(2)] == [C(1), C(2)];
    assert HandOver(2, 2, [C(1), C(2)]) == [];
  }

  /**
   The same run goes on until server 0's log is that of the leader: its machine was handed a message at
   index 2, where its log, and the machine of the leader, have something else.
   */
  lemma AppliedEntryOverwritten() returns (states: seq<Group>, events: seq<Event>, last: Group)
    ensures VotedRun(states, events) && last == states[|events|] && |last.nodes| == 3
    ensures var n, l := last.nodes[0], last.nodes[2];
      && n.log.start == 1 && n.log.End() == 3 && n.log.entries == l.log.entries
      && |n.machine| == 2 && n.machine[1].index == 2 && n.machine[1].value != n.log.At(2).value
      && |l.machine| == 2 && l.machine[1].index == 2 && n.machine[1] != l.machine[1]
  {
    var t, e := UpToAstray();
    var t1 := CommitsAstray(t, e);
    var t2 := AnswersShort(t1, e);
    var t3 := Corrected(t2, e);
    var bs := [Mistaken([C(1), C(2)], e), New(2, [C(1), C(2)]), Second([Track(2, 1, 1), Track(3, 2, 1)])];
    Sound(t3, bs, 0);
    Sound(t3, bs, 2);
    states, events, last := t3.states, t3.events, t3.Last();
  }
}
