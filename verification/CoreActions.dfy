/**
 Each action on the history keeps the invariants of module `Core`.
 */
module CoreActions {
  import opened Types
  import opened Log
  import opened Quorums
  import opened Core

  //
  // What a growing history carries over
  //

  lemma StillHasGrows(c: Core, c': Core, t: nat, j: nat, m: nat)
    requires c.Shaped() && c'.Shaped() && |c.term| == |c'.term|
    requires Grows(c.h, c'.h) && LedGrows(c.h, c'.h)
    requires t in c.h.led && m <= |c.h.led[t]| && StillHas(c, t, j, m)
    requires c.term[j] <= c'.term[j] && c.log[j] <= c'.log[j]
    ensures m <= |c'.h.led[t]| && StillHas(c', t, j, m)
  {
    HasGrows(c.h, c'.h, c.log[j], t, m);
    if Has(c.h, c.log[j], t, m) {
      PrefixTrans(c'.h.led[t][..m], c.log[j], c'.log[j]);
    } else {
      LostGrows(c.h, c'.h, t, m, c.term[j], c'.term[j]);
    }
  }

  lemma HadAtVoteGrows(h: History, h': History, t: nat, j: nat, m: nat, u: nat)
    requires Grows(h, h') && LedGrows(h, h')
    requires t in h.led && m <= |h.led[t]| && u > t && Slot(u, j) in h.votes
    requires HadAtVote(h, t, j, m, u)
    ensures m <= |h'.led[t]| && HadAtVote(h', t, j, m, u)
  {
    HasGrows(h, h', h.votes[Slot(u, j)].log, t, m);
    if Lost(h, t, m, u - 1) {
      LostGrows(h, h', t, m, u - 1, u - 1);
    }
  }

  /** The logs of bids and ballots stay known, whatever else happens. */
  lemma OldLogsStayKnown(h: History, h': History)
    requires Grows(h, h') && LedGrows(h, h') && AskedLogsOk(h)
    ensures forall s :: s in h.bids ==> BidLogOk(h', s)
    ensures forall s :: s in h.votes ==> BallotLogOk(h', s)
  {
    forall s | s in h.bids ensures BidLogOk(h', s) {
      assert BidLogOk(h, s);
      KnownGrows(h, h', h.bids[s]);
    }
    forall s | s in h.votes ensures BallotLogOk(h', s) {
      assert BallotLogOk(h, s);
      KnownGrows(h, h', h.votes[s].log);
    }
  }

  lemma LedStaysOk(h: History, h': History, t: nat)
    requires Grows(h, h') && LedGrows(h, h') && t in h.led && t in h.victories
    requires h'.led[t] == h.led[t] && LedOk(h, t)
    ensures LedOk(h', t)
  {
    KnownGrows(h, h', h.led[t]);
  }

  //
  // A server enters a later term
  //

  lemma SetTermKeepsElections(c: Core, i: nat, term: nat)
    requires ElectionInv(c) && i < |c.term| && term >= c.term[i]
    ensures ElectionInv(SetTerm(c, i, term))
  {
    var c' := SetTerm(c, i, term);
    VotesStayOk(c, c');
  }

  /** Recorded votes stay in order while bids stay and terms rise. */
  lemma VotesStayOk(c: Core, c': Core)
    requires forall s {:trigger VoteOk(c, s)} :: s in c.h.votes ==> VoteOk(c, s)
    requires |c.term| == |c'.term| && forall i :: 0 <= i < |c.term| ==> c.term[i] <= c'.term[i]
    requires forall s :: s in c.h.bids ==> s in c'.h.bids && c'.h.bids[s] == c.h.bids[s]
    ensures forall s {:trigger VoteOk(c', s)} ::
      s in c.h.votes && s in c'.h.votes && c'.h.votes[s] == c.h.votes[s] ==> VoteOk(c', s)
  {
    forall s | s in c.h.votes && s in c'.h.votes && c'.h.votes[s] == c.h.votes[s]
      ensures VoteOk(c', s)
    {
      assert VoteOk(c, s);
    }
  }

  lemma SetTermKeepsLogs(c: Core, i: nat, term: nat)
    requires ElectionInv(c) && LogInv(c) && i < |c.term| && term >= c.term[i]
    requires ElectionInv(SetTerm(c, i, term))
    ensures LogInv(SetTerm(c, i, term))
  {
    var c' := SetTerm(c, i, term);
    assert Grows(c.h, c'.h) && LedGrows(c.h, c'.h);
    forall j: nat | j < |c.log| ensures ServerLogOk(c', j) {
      assert ServerLogOk(c, j);
    }
    forall t: nat, j: nat, m: nat | Held(c'.h, t, j, m) ensures StillHas(c', t, j, m) {
      assert Held(c.h, t, j, m);
      StillHasGrows(c, c', t, j, m);
    }
  }

  //
  // A server becomes candidate
  //

  lemma BidKeepsElections(c: Core, i: nat)
    requires ElectionInv(c) && i < |c.term|
    ensures ElectionInv(Bid(c, i)) && Grows(c.h, Bid(c, i).h)
  {
    var slot := Slot(c.term[i] + 1, i);
    assert slot in c.h.votes ==> VoteOk(c, slot);
    assert slot !in c.h.votes && slot !in c.h.bids;
    var c' := Bid(c, i);
    VotesStayOk(c, c');
    assert VoteOk(c', slot);
    forall t | t in c'.h.victories ensures VictoryOk(c'.h, t, |c'.term|) {
      assert VictoryOk(c.h, t, |c.term|);
    }
  }

  lemma BidKeepsLogs(c: Core, i: nat)
    requires ElectionInv(c) && LogInv(c) && i < |c.term|
    requires ElectionInv(Bid(c, i)) && Grows(c.h, Bid(c, i).h)
    ensures LogInv(Bid(c, i))
  {
    var c' := Bid(c, i);
    var slot := Slot(c.term[i] + 1, i);
    assert LedGrows(c.h, c'.h);
    OldLogsStayKnown(c.h, c'.h);
    forall j: nat | j < |c.log| ensures ServerLogOk(c', j) {
      assert ServerLogOk(c, j);
      KnownGrows(c.h, c'.h, c.log[j]);
    }
    assert ServerLogOk(c, i) && ServerLogOk(c', i);
    assert BidLogOk(c'.h, slot) && BallotLogOk(c'.h, slot);
    BidKeepsHeld(c, i);
    LedStays(c, c');
  }

  /** The logs of past leaders stay as they are. */
  lemma LedStays(c: Core, c': Core)
    requires ElectionInv(c) && ElectionInv(c') && LedsOk(c.h)
    requires Grows(c.h, c'.h) && c'.h.led == c.h.led
    ensures LedsOk(c'.h)
  {
    forall t | t in c'.h.led ensures LedOk(c'.h, t) {
      assert LedOk(c.h, t);
      LedStaysOk(c.h, c'.h, t);
    }
  }

  lemma BidKeepsHeld(c: Core, i: nat)
    requires ElectionInv(c) && i < |c.term| && HeldNow(c) && HeldAtVote(c.h)
    requires ElectionInv(Bid(c, i)) && Grows(c.h, Bid(c, i).h)
    ensures HeldNow(Bid(c, i)) && HeldAtVote(Bid(c, i).h)
  {
    var c' := Bid(c, i);
    var slot := Slot(c.term[i] + 1, i);
    assert LedGrows(c.h, c'.h);
    forall t: nat, j: nat, m: nat | Held(c'.h, t, j, m) ensures StillHas(c', t, j, m) {
      assert Held(c.h, t, j, m);
      StillHasGrows(c, c', t, j, m);
    }
    forall t: nat, j: nat, m: nat, u: nat | Held(c'.h, t, j, m) && u > t && Slot(u, j) in c'.h.votes
      ensures HadAtVote(c'.h, t, j, m, u)
    {
      assert Held(c.h, t, j, m);
      if Slot(u, j) == slot {
        VoteOfHolder(c, c'.h, i, t, m);
      } else {
        HadAtVoteGrows(c.h, c'.h, t, j, m, u);
      }
    }
  }

  /** A server that votes, in a term it enters now, has or lost what it held. */
  lemma VoteOfHolder(c: Core, h': History, i: nat, t: nat, m: nat)
    requires c.Shaped() && i < |c.term| && t in c.h.led && m <= |c.h.led[t]| && StillHas(c, t, i, m)
    requires Grows(c.h, h') && h'.led == c.h.led
    requires var s := Slot(c.term[i] + 1, i); s in h'.votes && h'.votes[s].log == c.log[i]
    ensures HadAtVote(h', t, i, m, c.term[i] + 1)
  {
    if Has(c.h, c.log[i], t, m) {
    } else {
      LostGrows(c.h, h', t, m, c.term[i], c.term[i]);
    }
  }

  //
  // A server votes
  //

  ghost predicate CanVote(c: Core, v: nat, candidate: nat)
    requires c.Shaped() && v < |c.term|
  {
    && Slot(c.term[v], candidate) in c.h.bids
    && UpToDate(c.h.bids[Slot(c.term[v], candidate)], c.log[v])
  }

  lemma VoteKeepsElections(c: Core, v: nat, candidate: nat)
    requires ElectionInv(c) && v < |c.term| && CanVote(c, v, candidate)
    ensures ElectionInv(Vote(c, v, candidate)) && Grows(c.h, Vote(c, v, candidate).h)
  {
    var c' := Vote(c, v, candidate);
    VotesStayOk(c, c');
    assert Slot(c.term[v], v) in c.h.votes || VoteOk(c', Slot(c.term[v], v));
    forall t | t in c'.h.victories ensures VictoryOk(c'.h, t, |c'.term|) {
      assert VictoryOk(c.h, t, |c.term|);
      var w := c.h.victories[t];
      forall q | q in w.quorum
        ensures Slot(t, q) in c'.h.votes && c'.h.votes[Slot(t, q)].candidate == w.leader
      {
        assert Slot(t, q) in c.h.votes;
      }
    }
  }

  lemma VoteKeepsLogs(c: Core, v: nat, candidate: nat)
    requires ElectionInv(c) && LogInv(c) && v < |c.term| && CanVote(c, v, candidate)
    requires ElectionInv(Vote(c, v, candidate)) && Grows(c.h, Vote(c, v, candidate).h)
    ensures LogInv(Vote(c, v, candidate))
  {
    var c' := Vote(c, v, candidate);
    assert LedGrows(c.h, c'.h);
    OldLogsStayKnown(c.h, c'.h);
    forall j: nat | j < |c.log| ensures ServerLogOk(c', j) {
      assert ServerLogOk(c, j);
      KnownGrows(c.h, c'.h, c.log[j]);
    }
    assert ServerLogOk(c', v);
    assert Slot(c.term[v], v) in c.h.votes || BallotLogOk(c'.h, Slot(c.term[v], v));
    VoteKeepsHeld(c, v, candidate);
    LedStays(c, c');
  }

  lemma VoteKeepsHeld(c: Core, v: nat, candidate: nat)
    requires ElectionInv(c) && v < |c.term| && HeldNow(c) && HeldAtVote(c.h)
    requires ElectionInv(Vote(c, v, candidate)) && Grows(c.h, Vote(c, v, candidate).h)
    ensures HeldNow(Vote(c, v, candidate)) && HeldAtVote(Vote(c, v, candidate).h)
  {
    var c' := Vote(c, v, candidate);
    assert LedGrows(c.h, c'.h);
    forall t: nat, j: nat, m: nat | Held(c'.h, t, j, m) ensures StillHas(c', t, j, m) {
      assert Held(c.h, t, j, m);
      StillHasGrows(c, c', t, j, m);
    }
    forall t: nat, j: nat, m: nat, u: nat | Held(c'.h, t, j, m) && u > t && Slot(u, j) in c'.h.votes
      ensures HadAtVote(c'.h, t, j, m, u)
    {
      assert Held(c.h, t, j, m);
      if Slot(u, j) in c.h.votes {
        HadAtVoteGrows(c.h, c'.h, t, j, m, u);
      } else {
        FirstVoteOfHolder(c, c'.h, v, t, m);
      }
    }
  }

  /** A server that votes in its present term has or lost what it held, or the vote came too late. */
  lemma FirstVoteOfHolder(c: Core, h': History, v: nat, t: nat, m: nat)
    requires ElectionInv(c) && v < |c.term|
    requires t in c.h.led && m <= |c.h.led[t]| && t < c.term[v] && StillHas(c, t, v, m)
    requires Slot(c.term[v], v) !in c.h.votes
    requires Grows(c.h, h') && h'.led == c.h.led
    requires var s := Slot(c.term[v], v); s in h'.votes && h'.votes[s].log == c.log[v]
    ensures HadAtVote(h', t, v, m, c.term[v])
  {
    var u := c.term[v];
    if Has(c.h, c.log[v], t, m) {
    } else {
      var w :| t < w <= u && w in c.h.victories && !Has(c.h, c.h.victories[w].start, t, m);
      if w < u {
        assert Lost(c.h, t, m, u - 1);
        LostGrows(c.h, h', t, m, u - 1, u - 1);
      } else {
        assert VictoryOk(c.h, u, |c.term|);
      }
    }
  }

  //
  // A candidate wins
  //

  ghost predicate CanWin(c: Core, i: nat)
    requires c.Shaped() && i < |c.term|
  {
    && c.term[i] !in c.h.victories
    && Slot(c.term[i], i) in c.h.bids
    && c.h.bids[Slot(c.term[i], i)] == c.log[i]
    && Majority(c.h.Voters(c.term[i], i, |c.term|), |c.term|)
  }

  lemma WinKeepsElections(c: Core, i: nat)
    requires ElectionInv(c) && i < |c.term| && CanWin(c, i)
    ensures ElectionInv(Win(c, i)) && Grows(c.h, Win(c, i).h) && LedGrows(c.h, Win(c, i).h)
  {
    var c' := Win(c, i);
    VotesStayOk(c, c');
    WinIsVictory(c, i);
    forall t | t in c'.h.victories ensures VictoryOk(c'.h, t, |c'.term|) {
      if t != c.term[i] {
        assert VictoryOk(c.h, t, |c.term|);
      }
    }
  }

  lemma WinIsVictory(c: Core, i: nat)
    requires c.Shaped() && i < |c.term| && CanWin(c, i)
    ensures VictoryOk(Win(c, i).h, c.term[i], |c.term|)
  {
    var v := Win(c, i).h.victories[c.term[i]];
    assert v == Victory(i, c.h.Voters(c.term[i], i, |c.term|), c.log[i]);
  }

  lemma WinKeepsLogs(c: Core, i: nat)
    requires ElectionInv(c) && LogInv(c) && i < |c.term| && CanWin(c, i)
    requires ElectionInv(Win(c, i)) && Grows(c.h, Win(c, i).h) && LedGrows(c.h, Win(c, i).h)
    ensures LogInv(Win(c, i))
  {
    var c' := Win(c, i);
    OldLogsStayKnown(c.h, c'.h);
    forall j: nat | j < |c.log| ensures ServerLogOk(c', j) {
      assert ServerLogOk(c, j);
      KnownGrows(c.h, c'.h, c.log[j]);
    }
    forall t | t in c'.h.led ensures LedOk(c'.h, t) {
      if t == c.term[i] {
        assert ServerLogOk(c, i) && ServerLogOk(c', i);
        KnownAscends(c.h, c.log[i]);
      } else {
        assert LedOk(c.h, t);
        LedStaysOk(c.h, c'.h, t);
      }
    }
    WinKeepsHeld(c, i);
  }

  lemma WinKeepsHeld(c: Core, i: nat)
    requires ElectionInv(c) && i < |c.term| && CanWin(c, i)
    requires AcksOk(c.h) && HeldNow(c) && HeldAtVote(c.h)
    requires ElectionInv(Win(c, i)) && Grows(c.h, Win(c, i).h) && LedGrows(c.h, Win(c, i).h)
    ensures HeldNow(Win(c, i)) && HeldAtVote(Win(c, i).h)
  {
    var c' := Win(c, i);
    forall t: nat, j: nat, m: nat | Held(c'.h, t, j, m) ensures StillHas(c', t, j, m) {
      if t == c.term[i] {
        assert j == i;
      } else {
        assert Held(c.h, t, j, m);
        StillHasGrows(c, c', t, j, m);
      }
    }
    forall t: nat, j: nat, m: nat, u: nat | Held(c'.h, t, j, m) && u > t && Slot(u, j) in c'.h.votes
      ensures HadAtVote(c'.h, t, j, m, u)
    {
      assert VoteOk(c, Slot(u, j));
      assert t != c.term[i];
      assert Held(c.h, t, j, m);
      HadAtVoteGrows(c.h, c'.h, t, j, m, u);
    }
  }

  //
  // A leader appends to its log
  //

  ghost predicate CanLead(c: Core, i: nat, entries: seq<Entry>)
    requires c.Shaped() && i < |c.term|
  {
    && c.h.LedBy(c.term[i], i)
    && c.h.led[c.term[i]] == c.log[i]
    && forall k :: 0 <= k < |entries| ==> entries[k].term == c.term[i]
  }

  lemma LeadKeepsElections(c: Core, i: nat, entries: seq<Entry>)
    requires ElectionInv(c) && i < |c.term| && c.h.LedBy(c.term[i], i)
    ensures ElectionInv(Lead(c, i, entries)) && Grows(c.h, Lead(c, i, entries).h)
  {
    var c' := Lead(c, i, entries);
    VotesStayOk(c, c');
    forall t | t in c'.h.victories ensures VictoryOk(c'.h, t, |c'.term|) {
      assert VictoryOk(c.h, t, |c.term|);
    }
  }

  /** The leader's own log stays known when it grows. */
  lemma LeadKnown(c: Core, i: nat, entries: seq<Entry>)
    requires c.Shaped() && i < |c.term| && CanLead(c, i, entries) && Known(c.h, c.log[i])
    ensures Known(Lead(c, i, entries).h, Lead(c, i, entries).log[i])
  {
    var h' := Lead(c, i, entries).h;
    var log := c.log[i];
    var log' := log + entries;
    forall k: nat | k < |log'| ensures KnownAt(h', log', k) {
      if k < |log| {
        assert log'[..k + 1] == log[..k + 1];
        assert KnownAt(c.h, log, k);
        assert log <= log';
      } else {
        assert log'[k] == entries[k - |log|];
      }
    }
  }

  lemma LeadKeepsLogs(c: Core, i: nat, entries: seq<Entry>)
    requires ElectionInv(c) && LogInv(c) && i < |c.term| && CanLead(c, i, entries)
    requires ElectionInv(Lead(c, i, entries)) && Grows(c.h, Lead(c, i, entries).h)
    ensures LogInv(Lead(c, i, entries)) && LedGrows(c.h, Lead(c, i, entries).h)
  {
    var c' := Lead(c, i, entries);
    assert LedGrows(c.h, c'.h);
    OldLogsStayKnown(c.h, c'.h);
    assert ServerLogOk(c, i);
    LeadKnown(c, i, entries);
    forall j: nat | j < |c.log| ensures ServerLogOk(c', j) {
      assert ServerLogOk(c, j);
      if j != i {
        KnownGrows(c.h, c'.h, c.log[j]);
      }
    }
    forall t | t in c'.h.led ensures LedOk(c'.h, t) {
      assert LedOk(c.h, t);
      if t != c.term[i] {
        LedStaysOk(c.h, c'.h, t);
      }
    }
    LeadKeepsHeld(c, i, entries);
  }

  lemma LeadKeepsHeld(c: Core, i: nat, entries: seq<Entry>)
    requires ElectionInv(c) && i < |c.term| && CanLead(c, i, entries)
    requires AcksOk(c.h) && HeldNow(c) && HeldAtVote(c.h)
    requires ElectionInv(Lead(c, i, entries)) && Grows(c.h, Lead(c, i, entries).h)
    requires LedGrows(c.h, Lead(c, i, entries).h)
    ensures HeldNow(Lead(c, i, entries)) && HeldAtVote(Lead(c, i, entries).h)
  {
    var c' := Lead(c, i, entries);
    forall t: nat, j: nat, m: nat | Held(c'.h, t, j, m) ensures StillHas(c', t, j, m) {
      if !(t == c.term[i] && j == i) {
        assert Held(c.h, t, j, m);
        StillHasGrows(c, c', t, j, m);
      }
    }
    forall t: nat, j: nat, m: nat, u: nat | Held(c'.h, t, j, m) && u > t && Slot(u, j) in c'.h.votes
      ensures HadAtVote(c'.h, t, j, m, u)
    {
      assert VoteOk(c, Slot(u, j));
      assert !(t == c.term[i] && j == i);
      assert Held(c.h, t, j, m);
      HadAtVoteGrows(c.h, c'.h, t, j, m, u);
    }
  }

  //
  // A server accepts entries of its term's leader
  //

  ghost predicate CanAccept(c: Core, j: nat, at: nat, batch: seq<Entry>)
    requires c.Shaped() && j < |c.term|
  {
    && c.term[j] in c.h.led
    && at <= |c.log[j]|
    && at + |batch| <= |c.h.led[c.term[j]]|
    && batch == c.h.led[c.term[j]][at..at + |batch|]
    && (at > 0 ==> c.log[j][at - 1].term == c.h.led[c.term[j]][at - 1].term)
  }

  /** Known logs with the same term at a position are the same up to there. */
  lemma SameTermSamePrefix(h: History, a: seq<Entry>, b: seq<Entry>, k: nat)
    requires Known(h, a) && Known(h, b) && 0 < k <= |a| && k <= |b|
    requires a[k - 1].term == b[k - 1].term
    ensures a[..k] == b[..k]
  {
    assert KnownAt(h, a, k - 1) && KnownAt(h, b, k - 1);
    assert a[..k - 1 + 1] == a[..k] && b[..k - 1 + 1] == b[..k];
  }

  /** How far a log and a piece of the leader's log agree. */
  lemma MergePoint(h: History, log: seq<Entry>, led: seq<Entry>, at: nat, batch: seq<Entry>)
    returns (c: nat)
    requires Known(h, log) && Known(h, led)
    requires at <= |log| && at + |batch| <= |led| && batch == led[at..at + |batch|]
    requires at > 0 ==> log[at - 1].term == led[at - 1].term
    ensures at <= c <= at + |batch| && c <= |log| && log[..c] == led[..c]
    ensures c < at + |batch| && c < |log| ==> log[c] != led[c]
    ensures MergeAt(log, at, batch) == if c == at + |batch| then log else led[..at + |batch|]
  {
    var keep := Agreement(log[at..], batch);
    AgreementParts(log[at..], batch);
    c := at + keep;
    assert keep > 0 ==> log[c - 1] == log[at..][keep - 1] && led[c - 1] == batch[keep - 1];
    if c > 0 {
      SameTermSamePrefix(h, log, led, c);
    }
    if keep < |batch| {
      MergesRest(log, led, at, batch, keep);
    }
  }

  /** Below the first conflict both logs are the same, and the rest comes from the leader. */
  lemma MergesRest(log: seq<Entry>, led: seq<Entry>, at: nat, batch: seq<Entry>, keep: nat)
    requires at + |batch| <= |led| && batch == led[at..at + |batch|]
    requires keep < |batch| && at + keep <= |log| && log[..at + keep] == led[..at + keep]
    requires at + keep < |log| ==> log[at..][keep].term != batch[keep].term
    ensures Spliced(log, at, batch, keep) == led[..at + |batch|]
    ensures at + keep < |log| ==> log[at + keep] != led[at + keep]
  {
    var c := at + keep;
    assert led[..at + |batch|] == led[..c] + batch[keep..];
    assert c < |log| ==> log[c] == log[at..][keep] && led[c] == batch[keep];
  }

  lemma AcceptKeepsElections(c: Core, j: nat, at: nat, batch: seq<Entry>)
    requires ElectionInv(c) && j < |c.term| && at <= |c.log[j]|
    ensures ElectionInv(Accept(c, j, at, batch)) && Grows(c.h, Accept(c, j, at, batch).h)
    ensures LedGrows(c.h, Accept(c, j, at, batch).h)
  {
    var c' := Accept(c, j, at, batch);
    VotesStayOk(c, c');
    forall t | t in c'.h.victories ensures VictoryOk(c'.h, t, |c'.term|) {
      assert VictoryOk(c.h, t, |c.term|);
    }
  }

  /** What the accepting server held before, it still has or some leader since lacked. */
  lemma AcceptKeepsOld(c: Core, j: nat, at: nat, batch: seq<Entry>, t: nat, m: nat)
    requires ElectionInv(c) && j < |c.term| && CanAccept(c, j, at, batch)
    requires Known(c.h, c.log[j]) && LedsOk(c.h)
    requires t in c.h.led && m <= |c.h.led[t]| && StillHas(c, t, j, m)
    ensures Has(c.h, MergeAt(c.log[j], at, batch), t, m) || Lost(c.h, t, m, c.term[j])
  {
    var now := c.term[j];
    var led := c.h.led[now];
    assert LedOk(c.h, now);
    var i := MergePoint(c.h, c.log[j], led, at, batch);
    if !Lost(c.h, t, m, now) {
      var p := c.h.led[t][..m];
      if t != now {
        assert t < now && now in c.h.victories;
        assert LedOk(c.h, now);
        PrefixTrans(p, c.h.victories[now].start, led);
      }
      assert p <= c.log[j] && p <= led;
      if i < at + |batch| {
        assert m <= i;
      }
    }
  }

  lemma AcceptKnown(c: Core, j: nat, at: nat, batch: seq<Entry>)
    requires ElectionInv(c) && j < |c.term| && CanAccept(c, j, at, batch)
    requires LogsOk(c) && LedsOk(c.h)
    ensures var r := MergeAt(c.log[j], at, batch);
      && Known(c.h, r) && TermsUpTo(r, c.term[j])
      && c.h.led[c.term[j]][..at + |batch|] <= r
  {
    var led := c.h.led[c.term[j]];
    assert ServerLogOk(c, j) && LedOk(c.h, c.term[j]);
    MergeKnown(c.h, c.log[j], led, c.term[j], at, batch);
  }

  lemma MergeKnown(h: History, log: seq<Entry>, led: seq<Entry>, term: nat, at: nat, batch: seq<Entry>)
    requires Known(h, log) && Known(h, led) && TermsUpTo(log, term) && TermsUpTo(led, term)
    requires at <= |log| && at + |batch| <= |led| && batch == led[at..at + |batch|]
    requires at > 0 ==> log[at - 1].term == led[at - 1].term
    ensures var r := MergeAt(log, at, batch);
      Known(h, r) && TermsUpTo(r, term) && led[..at + |batch|] <= r
  {
    var i := MergePoint(h, log, led, at, batch);
    PrefixKnown(h, led, at + |batch|);
    if i < at + |batch| {
      assert MergeAt(log, at, batch) == led[..at + |batch|];
    } else {
      assert MergeAt(log, at, batch) == log && log[..i] == led[..i];
    }
  }

  lemma PrefixKnown(h: History, log: seq<Entry>, k: nat)
    requires Known(h, log) && k <= |log|
    ensures Known(h, log[..k])
  {
    forall i: nat | i < k ensures KnownAt(h, log[..k], i) {
      assert KnownAt(h, log, i);
      assert log[..k][..i + 1] == log[..i + 1];
    }
  }

  lemma AcceptKeepsLogs(c: Core, j: nat, at: nat, batch: seq<Entry>)
    requires ElectionInv(c) && LogInv(c) && j < |c.term| && CanAccept(c, j, at, batch)
    requires ElectionInv(Accept(c, j, at, batch)) && Grows(c.h, Accept(c, j, at, batch).h)
    requires LedGrows(c.h, Accept(c, j, at, batch).h)
    ensures LogInv(Accept(c, j, at, batch))
  {
    var c' := Accept(c, j, at, batch);
    OldLogsStayKnown(c.h, c'.h);
    AcceptKnown(c, j, at, batch);
    forall i: nat | i < |c.log| ensures ServerLogOk(c', i) {
      assert ServerLogOk(c, i);
      KnownGrows(c.h, c'.h, c'.log[i]);
    }
    LedStays(c, c');
    AcceptKeepsHeld(c, j, at, batch);
  }

  lemma AcceptKeepsHeld(c: Core, j: nat, at: nat, batch: seq<Entry>)
    requires ElectionInv(c) && j < |c.term| && CanAccept(c, j, at, batch)
    requires LogsOk(c) && LedsOk(c.h) && AcksOk(c.h) && HeldNow(c) && HeldAtVote(c.h)
    requires ElectionInv(Accept(c, j, at, batch)) && Grows(c.h, Accept(c, j, at, batch).h)
    requires LedGrows(c.h, Accept(c, j, at, batch).h)
    ensures HeldNow(Accept(c, j, at, batch)) && HeldAtVote(Accept(c, j, at, batch).h)
  {
    var c' := Accept(c, j, at, batch);
    var now := c.term[j];
    AcceptKnown(c, j, at, batch);
    assert ServerLogOk(c, j);
    forall t: nat, i: nat, m: nat | Held(c'.h, t, i, m) ensures StillHas(c', t, i, m) {
      if Held(c.h, t, i, m) {
        if i == j {
          AcceptKeepsOld(c, j, at, batch, t, m);
          assert Lost(c.h, t, m, now) ==> Lost(c'.h, t, m, now);
        } else {
          StillHasGrows(c, c', t, i, m);
        }
      } else {
        assert t == now && i == j && m <= at + |batch|;
        PrefixTrans(c.h.led[now][..m], c.h.led[now][..at + |batch|], c'.log[j]);
      }
    }
    forall t: nat, i: nat, m: nat, u: nat | Held(c'.h, t, i, m) && u > t && Slot(u, i) in c'.h.votes
      ensures HadAtVote(c'.h, t, i, m, u)
    {
      assert VoteOk(c, Slot(u, i));
      assert Held(c.h, t, i, m);
      HadAtVoteGrows(c.h, c'.h, t, i, m, u);
    }
  }
}
