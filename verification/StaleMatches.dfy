/**
 A run that shows why a tenure must begin with nothing matched: what a peer matched in an earlier tenure
 it may have no more, or may never have had of the leader's present log.
 */
module StaleMatches {
  import opened Types
  import opened Log
  import opened Handlers
  import opened Medians
  import opened Quorums
  import Core
  import opened Group
  import opened Safety
  import opened Scenarios
  import opened Departures

  function C4(term: nat): Entry {
    Configured(term, 4)
  }

  /** A server with an empty log. */
  function Empty(term: nat): Brief {
    Brief(term, Follower, [], 0, 0, [], [Track(1, 0, 1), Track(1, 0, 1), Track(1, 0, 1)])
  }

  function Holds(term: nat, role: Role, log: seq<Entry>, tracks: seq<Track>): Brief {
    Brief(term, role, log, 0, 0, [], tracks)
  }

  /** Three peers at the same next index; the first of them has matched this much. */
  function Tracks(next: nat, matched: nat): seq<Track> {
    [Track(next, matched, 1), Track(next, 0, 1), Track(next, 0, 1)]
  }

  /** Server 0 or 3 is elected with the votes of servers 1 and 2. */
  lemma NextLeader4(t: Trace, bs: seq<Brief>, i: nat, b: Brief) returns (t': Trace)
    requires At(t, bs) && |bs| == 4 && (i == 0 || i == 3) && bs[i].role == Follower
    requires bs[1].term == bs[2].term == bs[i].term
    requires Core.UpToDate(bs[i].log, bs[1].log) && Core.UpToDate(bs[i].log, bs[2].log)
    requires b == Won(bs[i], 4)
    ensures At(t', bs[1 := Voted(bs[1], bs[i].term + 1)][2 := Voted(bs[2], bs[i].term + 1)][i := b])
    ensures forall j: nat :: j < 4 && j != i ==>
      AskVote(j, RequestFrom(i, Standing(bs[i]), false)) in t'.Last().net
  {
    var t1 := Stand4(t, bs, i, 1, 2);
    var bs1 := bs[i := Standing(bs[i])];
    t' := Voted4(t1, bs1, i, b);
    assert bs1[1 := Voted(bs[1], bs[i].term + 1)][2 := Voted(bs[2], bs[i].term + 1)][i := b]
      == bs[1 := Voted(bs[1], bs[i].term + 1)][2 := Voted(bs[2], bs[i].term + 1)][i := b];
  }

  lemma Voted4(t: Trace, bs: seq<Brief>, i: nat, b: Brief) returns (t': Trace)
    requires At(t, bs) && |bs| == 4 && (i == 0 || i == 3) && bs[i].role == Candidate
    requires bs[1].term < bs[i].term && bs[2].term < bs[i].term
    requires Core.UpToDate(bs[i].log, bs[1].log) && Core.UpToDate(bs[i].log, bs[2].log)
    requires Counting(t.Last().nodes[i], [i], 1, false) && b == Leading(bs[i], 4)
    requires forall j: nat :: j < 4 && j != i ==> AskVote(j, RequestFrom(i, bs[i], false)) in t.Last().net
    ensures At(t', bs[1 := Voted(bs[1], bs[i].term)][2 := Voted(bs[2], bs[i].term)][i := b])
    ensures t.Last().net <= t'.Last().net
  {
    var a;
    t', a := Elect4(t, bs, i, 1, 2);
  }

  lemma WonIs(b: Brief, r: Brief, log: seq<Entry>, tracks: seq<Track>)
    requires b.quick == 0 && r == b.(term := b.term + 1, role := Leader, log := log, tracks := tracks)
    requires log == b.log + [C4(b.term + 1)] && |tracks| == |b.tracks|
    requires forall k :: 0 <= k < |tracks| ==> tracks[k] == b.tracks[k].(next := |log| + 1)
    ensures Won(b, 4) == r
  {
    assert tracks == WithNext(b.tracks, |log| + 1);
  }

  //
  // Terms 1 and 2
  //

  lemma Begin4() returns (t: Trace)
    ensures At(t, [Empty(0), Empty(0), Empty(0), Empty(0)])
  {
    t := Start(4);
    assert NewTracks(4) == [Track(1, 0, 1), Track(1, 0, 1), Track(1, 0, 1)];
    assert NewBrief(4) == Empty(0);
    assert seq(4, i requires 0 <= i < 4 => NewBrief(4)) == [Empty(0), Empty(0), Empty(0), Empty(0)];
  }

  /** Server 0 leads term 1, of which server 3 hears too. */
  lemma Term1() returns (t: Trace)
    ensures At(t, [Holds(1, Leader, [C4(1)], Tracks(2, 0)), Empty(1), Empty(1), Empty(1)])
  {
    var t0 := Begin4();
    var bs0 := [Empty(0), Empty(0), Empty(0), Empty(0)];
    var l := Holds(1, Leader, [C4(1)], Tracks(2, 0));
    assert [] + [C4(1)] == [C4(1)];
    WonIs(Empty(0), l, [C4(1)], Tracks(2, 0));
    var t1 := NextLeader4(t0, bs0, 0, l);
    var bs1 := [l, Empty(1), Empty(1), Empty(0)];
    assert bs0[1 := Empty(1)][2 := Empty(1)][0 := l] == bs1;
    t := HearsTerm(t1, bs1, 3, RequestFrom(0, Standing(Empty(0)), false),
                   [l, Empty(1), Empty(1), Empty(1)]);
  }

  /** A server hears of a later term. */
  lemma HearsTerm(t: Trace, bs: seq<Brief>, v: nat, vote: VoteRequest, bs': seq<Brief>) returns (t': Trace)
    requires At(t, bs) && v < |bs| && vote.serverId < |bs| && !vote.preVote && vote.term > bs[v].term
    requires AskVote(v, vote) in t.Last().net
    requires |bs'| == |bs| && bs'[v] == Voted(bs[v], vote.term)
    requires forall j :: 0 <= j < |bs| && j != v ==> bs'[j] == bs[j]
    ensures At(t', bs') && t.Last().net <= t'.Last().net
  {
    t' := Hears(t, bs, v, vote);
    assert bs' == bs[v := Voted(bs[v], vote.term)];
  }

  /** Server 0 appends a message. */
  lemma Message1() returns (t: Trace, e: Entry)
    ensures e.term == 1
    ensures At(t, [Holds(1, Leader, [C4(1), e], Tracks(2, 0)), Empty(1), Empty(1), Empty(1)])
  {
    var t1 := Term1();
    var bs := [Holds(1, Leader, [C4(1)], Tracks(2, 0)), Empty(1), Empty(1), Empty(1)];
    t, e := Publishes(t1, bs, 0, [1]);
    assert [C4(1)] + [e] == [C4(1), e];
    assert bs[0 := Holds(1, Leader, [C4(1), e], Tracks(2, 0))]
      == [Holds(1, Leader, [C4(1), e], Tracks(2, 0)), Empty(1), Empty(1), Empty(1)];
  }

  /** Server 3 leads term 2, of which server 0 hears. */
  lemma Term2() returns (t: Trace, e: Entry)
    ensures e.term == 1
    ensures At(t, [Holds(2, Follower, [C4(1), e], Tracks(2, 0)), Empty(2), Empty(2),
                   Holds(2, Leader, [C4(2)], Tracks(2, 0))])
  {
    var t1;
    t1, e := Message1();
    var bs1 := [Holds(1, Leader, [C4(1), e], Tracks(2, 0)), Empty(1), Empty(1), Empty(1)];
    var l := Holds(2, Leader, [C4(2)], Tracks(2, 0));
    assert [] + [C4(2)] == [C4(2)];
    WonIs(Empty(1), l, [C4(2)], Tracks(2, 0));
    var t2 := NextLeader4(t1, bs1, 3, l);
    var bs2 := [bs1[0], Empty(2), Empty(2), l];
    assert bs1[1 := Empty(2)][2 := Empty(2)][3 := l] == bs2;
    t := HearsTerm(t2, bs2, 0, RequestFrom(3, Standing(Empty(1)), false),
                   [Holds(2, Follower, [C4(1), e], Tracks(2, 0)), Empty(2), Empty(2), l]);
  }

  //
  // Terms 3 and 4
  //

  /** Server 0 leads again, in term 3. */
  lemma Term3() returns (t: Trace, e: Entry)
    ensures e.term == 1
    ensures At(t, [Holds(3, Leader, [C4(1), e, C4(3)], Tracks(4, 0)), Empty(3), Empty(3),
                   Holds(3, Follower, [C4(2)], Tracks(2, 0))])
  {
    var t1;
    t1, e := Term2();
    var f := Holds(2, Follower, [C4(1), e], Tracks(2, 0));
    var bs1 := [f, Empty(2), Empty(2), Holds(2, Leader, [C4(2)], Tracks(2, 0))];
    var l := Holds(3, Leader, [C4(1), e, C4(3)], Tracks(4, 0));
    assert [C4(1), e] + [C4(3)] == [C4(1), e, C4(3)];
    WonIs(f, l, [C4(1), e, C4(3)], Tracks(4, 0));
    var t2 := NextLeader4(t1, bs1, 0, l);
    var bs2 := [l, Empty(3), Empty(3), Holds(2, Leader, [C4(2)], Tracks(2, 0))];
    assert bs1[1 := Empty(3)][2 := Empty(3)][0 := l] == bs2;
    t := HearsTerm(t2, bs2, 3, RequestFrom(0, Standing(f), false),
                   [l, Empty(3), Empty(3), Holds(3, Follower, [C4(2)], Tracks(2, 0))]);
  }

  /** Server 1 with the first two entries of server 0, which it keeps. */
  function Keeper(term: nat, e: Entry): Brief {
    Empty(term).(log := [C4(1), e])
  }

  function Rewinding(e: Entry): Brief {
    Holds(3, Leader, [C4(1), e, C4(3)], [Track(1, 0, 1), Track(4, 0, 1), Track(4, 0, 1)])
  }

  lemma Keeps(t: Trace, e: Entry) returns (t': Trace)
    requires e.term == 1
    requires At(t, [Holds(3, Leader, [C4(1), e, C4(3)], Tracks(4, 0)), Empty(3), Empty(3),
                    Holds(3, Follower, [C4(2)], Tracks(2, 0))])
    ensures At(t', [Rewinding(e), Keeper(3, e), Empty(3), Holds(3, Follower, [C4(2)], Tracks(2, 0))])
    ensures AnswerAppend(0, AppendResponse(1, true, 3, 3, false)) in t'.Last().net
  {
    var l, f := Holds(3, Leader, [C4(1), e, C4(3)], Tracks(4, 0)), Holds(3, Follower, [C4(2)], Tracks(2, 0));
    var bs := [l, Empty(3), Empty(3), f];
    var t1 := BackToStart(t, bs, 0, 1);
    assert StartingAt(0, l, 1) == Rewinding(e);
    var bs1 := [Rewinding(e), Empty(3), Empty(3), f];
    assert bs[1 := Voted(bs[1], 3)][0 := Rewinding(e)] == bs1;
    t' := KeepsOf(t1, bs1, e);
    assert bs1[1 := Keeper(3, e)] == [Rewinding(e), Keeper(3, e), Empty(3), f];
  }

  lemma KeepsOf(t: Trace, bs: seq<Brief>, e: Entry) returns (t': Trace)
    requires At(t, bs) && |bs| == 4 && bs[0] == Rewinding(e) && bs[1] == Empty(3)
    ensures At(t', bs[1 := Keeper(3, e)])
    ensures AnswerAppend(0, AppendResponse(1, true, 3, 3, false)) in t'.Last().net
  {
    var ask := AskOf(0, bs[0], 1, 2);
    assert ask.entries == [C4(1), e];
    MergesAll([], 0, ask.entries);
    assert [] + ask.entries == [C4(1), e];
    TakesNothing(Empty(3), ask, [C4(1), e]);
    t' := Taken(t, bs, 0, 1, 2);
  }

  lemma Count4(a: nat, b: nat, c: nat, d: nat, index: nat)
    ensures Count([a, b, c, d], index)
      == (if a >= index then 1 else 0) + (if b >= index then 1 else 0)
         + (if c >= index then 1 else 0) + (if d >= index then 1 else 0)
  {
    assert [a, b, c, d][1..] == [b, c, d];
    Count3(b, c, d, index);
  }

  lemma Reached4(log: nat, x: Track, y: Track, z: Track)
    ensures [log] + MatchedOf([x, y, z]) == [log, x.matched, y.matched, z.matched]
  {
    assert [x, y, z][1..] == [y, z] && [y, z][1..] == [z];
    assert [z][1..] == [];
  }

  /** Server 0 as leader of term 3, with what server 1 has matched. */
  function Matcher(e: Entry): Brief {
    Holds(3, Leader, [C4(1), e, C4(3)], [Track(3, 2, 1), Track(4, 0, 1), Track(4, 0, 1)])
  }

  lemma HearsKeeper(t: Trace, bs: seq<Brief>, e: Entry) returns (t': Trace)
    requires At(t, bs) && |bs| == 4 && bs[0] == Rewinding(e)
    requires AnswerAppend(0, AppendResponse(1, true, 3, 3, false)) in t.Last().net
    ensures At(t', bs[0 := Matcher(e)])
  {
    assert MatchedBy(0, bs[0], 1, 3).tracks == Matcher(e).tracks;
    Reached4(3, Track(3, 2, 1), Track(4, 0, 1), Track(4, 0, 1));
    Count4(3, 2, 0, 0, 0);
    Count4(3, 2, 0, 0, 1);
    MedianIs([3, 2, 0, 0], 0);
    t' := HearsAcceptance(t, bs, 0, 1, 3, 0);
    assert HandOver(0, 0, [C4(1), e, C4(3)]) == [];
    assert Committing(MatchedBy(0, bs[0], 1, 3), 0) == Matcher(e);
  }

  lemma Matched3() returns (t: Trace, e: Entry)
    ensures e.term == 1
    ensures At(t, [Matcher(e), Keeper(3, e), Empty(3), Holds(3, Follower, [C4(2)], Tracks(2, 0))])
  {
    var t1;
    t1, e := Term3();
    var t2 := Keeps(t1, e);
    var bs2 := [Rewinding(e), Keeper(3, e), Empty(3), Holds(3, Follower, [C4(2)], Tracks(2, 0))];
    t := HearsKeeper(t2, bs2, e);
    assert bs2[0 := Matcher(e)]
      == [Matcher(e), Keeper(3, e), Empty(3), Holds(3, Follower, [C4(2)], Tracks(2, 0))];
  }

  /** Server 3 leads term 4. */
  lemma Term4() returns (t: Trace, e: Entry)
    ensures e.term == 1
    ensures At(t, [Matcher(e), Keeper(4, e), Empty(4), Holds(4, Leader, [C4(2), C4(4)], Tracks(3, 0))])
  {
    var t1;
    t1, e := Matched3();
    var f := Holds(3, Follower, [C4(2)], Tracks(2, 0));
    var bs1 := [Matcher(e), Keeper(3, e), Empty(3), f];
    var l := Holds(4, Leader, [C4(2), C4(4)], Tracks(3, 0));
    assert [C4(2)] + [C4(4)] == [C4(2), C4(4)];
    WonIs(f, l, [C4(2), C4(4)], Tracks(3, 0));
    t := NextLeader4(t1, bs1, 3, l);
    assert bs1[1 := Keeper(4, e)][2 := Empty(4)][3 := l] == [Matcher(e), Keeper(4, e), Empty(4), l];
  }

  /** Server 0 follows, and takes the first entry of server 3 in place of its log. */
  function Follows(log: seq<Entry>): Brief {
    Holds(4, Follower, log, [Track(3, 2, 1), Track(4, 0, 1), Track(4, 0, 1)])
  }

  function Rewound4(next: nat, step: nat): Brief {
    Holds(4, Leader, [C4(2), C4(4)], [Track(next, 0, step), Track(3, 0, 1), Track(3, 0, 1)])
  }

  lemma Refused4(t: Trace, e: Entry) returns (t': Trace)
    requires e.term == 1
    requires At(t, [Matcher(e), Keeper(4, e), Empty(4), Rewound4(3, 1)])
    ensures At(t', [Follows([C4(1), e, C4(3)]), Keeper(4, e), Empty(4), Rewound4(3, 1)])
    ensures AnswerAppend(3, AppendResponse(0, false, 4, 4, false)) in t'.Last().net
  {
    var bs := [Matcher(e), Keeper(4, e), Empty(4), Rewound4(3, 1)];
    assert bs[3].log[..2] == [C4(2), C4(4)];
    t' := Refused(t, bs, 3, 0);
    assert bs[0 := Follows([C4(1), e, C4(3)])] == [Follows([C4(1), e, C4(3)]), bs[1], bs[2], bs[3]];
  }

  lemma GoesBack(t: Trace, bs: seq<Brief>, next: nat, step: nat, next': nat, step': nat) returns (t': Trace)
    requires At(t, bs) && |bs| == 4 && bs[3] == Rewound4(next, step)
    requires AnswerAppend(3, AppendResponse(0, false, 4, 4, false)) in t.Last().net
    requires Rewound(Track(next, 0, step), 4) == Track(next', 0, step')
    ensures At(t', bs[3 := Rewound4(next', step')]) && t.Last().net <= t'.Last().net
  {
    t' := HearsRefusal(t, bs, 3, 0, 4);
    assert bs[3].tracks[0 := Track(next', 0, step')] == Rewound4(next', step').tracks;
  }

  lemma Restarts4(t: Trace, e: Entry) returns (t': Trace)
    requires At(t, [Follows([C4(1), e, C4(3)]), Keeper(4, e), Empty(4), Rewound4(3, 1)])
    requires AnswerAppend(3, AppendResponse(0, false, 4, 4, false)) in t.Last().net
    ensures At(t', [Follows([C4(1), e, C4(3)]), Keeper(4, e), Empty(4), Rewound4(1, 1)])
  {
    var bs := [Follows([C4(1), e, C4(3)]), Keeper(4, e), Empty(4), Rewound4(3, 1)];
    var t1 := GoesBack(t, bs, 3, 1, 2, 2);
    t' := GoesBack(t1, bs[3 := Rewound4(2, 2)], 2, 2, 1, 1);
    assert bs[3 := Rewound4(2, 2)][3 := Rewound4(1, 1)] == [bs[0], bs[1], bs[2], Rewound4(1, 1)];
  }

  lemma Follows4(t: Trace, e: Entry) returns (t': Trace)
    requires e.term == 1
    requires At(t, [Follows([C4(1), e, C4(3)]), Keeper(4, e), Empty(4), Rewound4(1, 1)])
    ensures At(t', [Follows([C4(2)]), Keeper(4, e), Empty(4), Rewound4(1, 1)])
  {
    var bs := [Follows([C4(1), e, C4(3)]), Keeper(4, e), Empty(4), Rewound4(1, 1)];
    var ask := AskOf(3, bs[3], 0, 1);
    assert ask.entries == [C4(2)];
    MergesAll([C4(1), e, C4(3)], 0, [C4(2)]);
    assert [C4(1), e, C4(3)][..0] + [C4(2)] == [C4(2)];
    TakesNothing(bs[0], ask, [C4(2)]);
    t' := Taken(t, bs, 3, 0, 1);
    assert bs[0 := Follows([C4(2)])] == [Follows([C4(2)]), bs[1], bs[2], bs[3]];
  }

  //
  // Term 5
  //

  /** Server 0 leads term 5, and takes server 1 to have matched two of its entries. */
  function Misled(next: nat): Brief {
    Holds(5, Leader, [C4(2), C4(5)], [Track(3, 2, 1), Track(next, 0, 1), Track(3, 0, 1)])
  }

  lemma Term5() returns (t: Trace, e: Entry)
    ensures e.term == 1
    ensures At(t, [Misled(3), Keeper(5, e), Empty(5), Rewound4(1, 1)])
  {
    var t1;
    t1, e := Term4();
    assert Holds(4, Leader, [C4(2), C4(4)], Tracks(3, 0)) == Rewound4(3, 1);
    var t2 := Refused4(t1, e);
    var t3 := Restarts4(t2, e);
    var t4 := Follows4(t3, e);
    t := Leads5(t4, e);
  }

  lemma Leads5(t: Trace, e: Entry) returns (t': Trace)
    requires e.term == 1
    requires At(t, [Follows([C4(2)]), Keeper(4, e), Empty(4), Rewound4(1, 1)])
    ensures At(t', [Misled(3), Keeper(5, e), Empty(5), Rewound4(1, 1)])
  {
    var bs := [Follows([C4(2)]), Keeper(4, e), Empty(4), Rewound4(1, 1)];
    assert [C4(2)] + [C4(5)] == [C4(2), C4(5)];
    WonIs(Follows([C4(2)]), Misled(3), [C4(2), C4(5)], Misled(3).tracks);
    t' := NextLeader4(t, bs, 0, Misled(3));
    assert bs[1 := Keeper(5, e)][2 := Empty(5)][0 := Misled(3)]
      == [Misled(3), Keeper(5, e), Empty(5), Rewound4(1, 1)];
  }

  /** Server 2 takes the whole log of server 0. */
  lemma Holder(t: Trace, e: Entry) returns (t': Trace)
    requires At(t, [Misled(3), Keeper(5, e), Empty(5), Rewound4(1, 1)])
    ensures At(t', [Misled(1), Keeper(5, e), Empty(5).(log := [C4(2), C4(5)]), Rewound4(1, 1)])
    ensures AnswerAppend(0, AppendResponse(2, true, 5, 3, false)) in t'.Last().net
  {
    var bs := [Misled(3), Keeper(5, e), Empty(5), Rewound4(1, 1)];
    var t1 := BackToStart(t, bs, 0, 2);
    assert StartingAt(0, Misled(3), 2) == Misled(1);
    var bs1 := [Misled(1), Keeper(5, e), Empty(5), Rewound4(1, 1)];
    assert bs[2 := Voted(bs[2], 5)][0 := Misled(1)] == bs1;
    t' := HolderOf(t1, bs1);
    assert bs1[2 := Empty(5).(log := [C4(2), C4(5)])]
      == [Misled(1), Keeper(5, e), Empty(5).(log := [C4(2), C4(5)]), Rewound4(1, 1)];
  }

  lemma HolderOf(t: Trace, bs: seq<Brief>) returns (t': Trace)
    requires At(t, bs) && |bs| == 4 && bs[0] == Misled(1) && bs[2] == Empty(5)
    ensures At(t', bs[2 := Empty(5).(log := [C4(2), C4(5)])])
    ensures AnswerAppend(0, AppendResponse(2, true, 5, 3, false)) in t'.Last().net
  {
    var ask := AskOf(0, bs[0], 2, 2);
    assert ask.entries == [C4(2), C4(5)];
    MergesAll([], 0, ask.entries);
    assert [] + ask.entries == [C4(2), C4(5)];
    TakesNothing(Empty(5), ask, [C4(2), C4(5)]);
    t' := Taken(t, bs, 0, 2, 2);
  }

  lemma CommitsMisled(t: Trace, bs: seq<Brief>) returns (t': Trace)
    requires At(t, bs) && |bs| == 4 && bs[0] == Misled(1)
    requires AnswerAppend(0, AppendResponse(2, true, 5, 3, false)) in t.Last().net
    ensures t'.Ok() && |t'.events| == |t.events| + 1 && t'.states[|t.events|] == t.Last()
    ensures CommitsAt(t'.states, t'.events, |t.events|, 0, 2)
  {
    var tracks := [Track(3, 2, 1), Track(3, 2, 1), Track(3, 0, 1)];
    assert MatchedBy(0, bs[0], 2, 3).tracks == tracks;
    Reached4(2, tracks[0], tracks[1], tracks[2]);
    Count4(2, 2, 2, 0, 2);
    Count4(2, 2, 2, 0, 3);
    MedianIs([2, 2, 2, 0], 2);
    t' := HearsAcceptance(t, bs, 0, 2, 3, 2);
  }

  /** No majority has the leader's log up to this index. */
  ghost predicate Unbacked(g: Group, i: nat, index: nat)
    requires i < |g.nodes| && index <= |g.nodes[i].log.entries|
  {
    forall quorum :: Majority(quorum, |g.nodes|) ==> !AllHave(g, quorum, g.nodes[i].log.entries[..index])
  }

  ghost predicate AllHave(g: Group, servers: set<nat>, log: seq<Entry>) {
    forall j: nat :: j in servers ==> j < |g.nodes| && log <= g.nodes[j].log.entries
  }

  /**
   A run whose leaders were voted for, in which a leader commits an entry of its own term that no majority
   has, because it takes a peer to match what it matched two terms before.
   */
  lemma StaleMatchCommits() returns (states: seq<Group>, events: seq<Event>, k: nat)
    ensures VotedRun(states, events) && k < |events| && 0 < |states[k].nodes|
    ensures CommitsAt(states, events, k, 0, 2) && OwnTermAt(states[k].nodes[0], 2)
    ensures Unbacked(states[k], 0, 2)
  {
    var t1, e := Term5();
    var t2 := Holder(t1, e);
    var bs := [Misled(1), Keeper(5, e), Empty(5).(log := [C4(2), C4(5)]), Rewound4(1, 1)];
    OnlyTwoHave(t2, bs, e);
    var t3 := CommitsMisled(t2, bs);
    states, events, k := t3.states, t3.events, |t2.events|;
  }

  lemma OnlyTwoHave(t: Trace, bs: seq<Brief>, e: Entry)
    requires e.term == 1 && At(t, bs)
    requires bs == [Misled(1), Keeper(5, e), Empty(5).(log := [C4(2), C4(5)]), Rewound4(1, 1)]
    ensures |t.Last().nodes| == 4 && OwnTermAt(t.Last().nodes[0], 2) && Unbacked(t.Last(), 0, 2)
  {
    Sound(t, bs, 0);
    Sound(t, bs, 1);
    Sound(t, bs, 3);
    var g := t.Last();
    var log := g.nodes[0].log.entries[..2];
    assert log == [C4(2), C4(5)];
    assert log[0] != g.nodes[1].log.entries[0] && log[1] != g.nodes[3].log.entries[1];
    assert !(log <= g.nodes[1].log.entries) && !(log <= g.nodes[3].log.entries);
    forall quorum | Majority(quorum, 4) ensures !AllHave(g, quorum, log) {
      TwoAreNoMajority(quorum);
    }
  }

  lemma TwoAreNoMajority(quorum: set<nat>)
    requires Majority(quorum, 4)
    ensures 1 in quorum || 3 in quorum
  {
    if 1 !in quorum && 3 !in quorum {
      SubsetCounted(quorum, {0, 2});
    }
  }
}
