/**
 What a run leaves behind: the history that the safety arguments are about, the few actions that
 change it, and the invariants those actions keep.

 Nothing a server does depends on the history. Module `Group` records it beside the servers.
 */
module Core {
  import opened Types
  import opened Log
  import opened Quorums

  /** A server in a term. */
  datatype Slot = Slot(term: nat, server: nat)

  /** A vote, with the voter's log at the time. */
  datatype Ballot = Ballot(candidate: nat, log: seq<Entry>)

  /** An election, with everyone who had voted for the leader and the log it started with. */
  datatype Victory = Victory(leader: nat, quorum: set<nat>, start: seq<Entry>)

  /** A server's word that, in a term, its log agreed with the leader's below an index. */
  datatype Ack = Ack(term: nat, server: nat, index: nat)

  datatype History = History(
    bids: map<Slot, seq<Entry>>,
    votes: map<Slot, Ballot>,
    victories: map<nat, Victory>,
    led: map<nat, seq<Entry>>,
    acks: set<Ack>)
  {
    /** A server becomes candidate with this log, and votes for itself. */
    function Bid(slot: Slot, log: seq<Entry>): History {
      this.(bids := bids[slot := log], votes := votes[slot := Ballot(slot.server, log)])
    }

    /** A server votes; only its first vote in a term is recorded. */
    function Vote(slot: Slot, candidate: nat, log: seq<Entry>): History {
      if slot in votes then this else this.(votes := votes[slot := Ballot(candidate, log)])
    }

    function Voters(term: nat, candidate: nat, n: nat): set<nat> {
      set v | 0 <= v < n && Slot(term, v) in votes && votes[Slot(term, v)].candidate == candidate
    }

    function Win(slot: Slot, log: seq<Entry>, n: nat): History {
      this.(victories := victories[slot.term := Victory(slot.server, Voters(slot.term, slot.server, n), log)],
            led := led[slot.term := log])
    }

    /** The leader of a term has this log now. */
    function Lead(term: nat, log: seq<Entry>): History {
      this.(led := led[term := log])
    }

    function Acknowledge(slot: Slot, index: nat): History {
      this.(acks := acks + set k | 0 <= k <= index :: Ack(slot.term, slot.server, k))
    }

    predicate LedBy(term: nat, server: nat) {
      term in victories && victories[term].leader == server && term in led
    }
  }

  datatype Core = Core(term: seq<nat>, log: seq<seq<Entry>>, h: History) {
    predicate Shaped() { |term| == |log| }
  }

  /** A candidate's log against a voter's. */
  predicate UpToDate(a: seq<Entry>, b: seq<Entry>) {
    || TermOfLast(a) > TermOfLast(b)
    || (TermOfLast(a) == TermOfLast(b) && |a| >= |b|)
  }

  //
  // The invariant on votes, which holds in every run
  //

  ghost predicate VoteOk(c: Core, s: Slot)
    requires s in c.h.votes
  {
    var ballot := c.h.votes[s];
    && s.server < |c.term|
    && s.term <= c.term[s.server]
    && Slot(s.term, ballot.candidate) in c.h.bids
    && UpToDate(c.h.bids[Slot(s.term, ballot.candidate)], ballot.log)
  }

  ghost predicate BidsOk(c: Core) {
    forall s :: s in c.h.bids ==> s.server < |c.term| && 1 <= s.term <= c.term[s.server]
  }

  ghost predicate VictoryOk(h: History, term: nat, n: nat)
    requires term in h.victories
  {
    var v := h.victories[term];
    && v.leader < n
    && Majority(v.quorum, n)
    && (forall q :: q in v.quorum ==>
          Slot(term, q) in h.votes && h.votes[Slot(term, q)].candidate == v.leader)
    && Slot(term, v.leader) in h.bids
    && v.start == h.bids[Slot(term, v.leader)]
  }

  ghost predicate ElectionInv(c: Core) {
    && c.Shaped()
    && (forall s {:trigger VoteOk(c, s)} :: s in c.h.votes ==> VoteOk(c, s))
    && BidsOk(c)
    && c.h.victories.Keys == c.h.led.Keys
    && (forall t {:trigger VictoryOk(c.h, t, |c.term|)} :: t in c.h.victories ==> VictoryOk(c.h, t, |c.term|))
  }

  //
  // The invariant on logs, which holds while every leader was voted for
  //

  /** The entry at a position comes from the leader of its term, together with all that precedes it. */
  ghost predicate KnownAt(h: History, log: seq<Entry>, k: nat)
    requires k < |log|
  {
    log[k].term in h.led && log[..k + 1] <= h.led[log[k].term]
  }

  ghost predicate Known(h: History, log: seq<Entry>) {
    forall k: nat {:trigger KnownAt(h, log, k)} :: k < |log| ==> KnownAt(h, log, k)
  }

  predicate TermsUpTo(log: seq<Entry>, term: int) {
    forall k :: 0 <= k < |log| ==> log[k].term <= term
  }

  predicate TermsAscend(log: seq<Entry>) {
    forall a, b :: 0 <= a <= b < |log| ==> log[a].term <= log[b].term
  }

  ghost predicate ServerLogOk(c: Core, i: nat)
    requires c.Shaped() && i < |c.log|
  {
    Known(c.h, c.log[i]) && TermsUpTo(c.log[i], c.term[i])
  }

  ghost predicate LogsOk(c: Core)
    requires c.Shaped()
  {
    forall i: nat {:trigger ServerLogOk(c, i)} :: i < |c.log| ==> ServerLogOk(c, i)
  }

  ghost predicate BidLogOk(h: History, s: Slot)
    requires s in h.bids
  {
    Known(h, h.bids[s]) && TermsUpTo(h.bids[s], s.term - 1)
  }

  ghost predicate BallotLogOk(h: History, s: Slot)
    requires s in h.votes
  {
    Known(h, h.votes[s].log)
  }

  ghost predicate AskedLogsOk(h: History) {
    && (forall s {:trigger BidLogOk(h, s)} :: s in h.bids ==> BidLogOk(h, s))
    && (forall s {:trigger BallotLogOk(h, s)} :: s in h.votes ==> BallotLogOk(h, s))
  }

  /** The log of a term's leader is known, extends the one it started with, and its terms ascend. */
  ghost predicate LedOk(h: History, t: nat)
    requires t in h.led && t in h.victories
  {
    && Known(h, h.led[t])
    && TermsUpTo(h.led[t], t)
    && TermsAscend(h.led[t])
    && h.victories[t].start <= h.led[t]
  }

  ghost predicate LedsOk(h: History)
    requires h.victories.Keys == h.led.Keys
  {
    forall t {:trigger LedOk(h, t)} :: t in h.led ==> LedOk(h, t)
  }

  ghost predicate Has(h: History, log: seq<Entry>, term: nat, index: nat)
    requires term in h.led && index <= |h.led[term]|
  {
    h.led[term][..index] <= log
  }

  /** Whether some leader after `term`, up to term `until`, started without these entries. */
  ghost predicate Lost(h: History, term: nat, index: nat, until: nat)
    requires term in h.led && index <= |h.led[term]|
  {
    exists u :: term < u <= until && u in h.victories && !Has(h, h.victories[u].start, term, index)
  }

  /** Whether the server had the first `index` entries of the term's leader, in that term. */
  ghost predicate Held(h: History, term: nat, server: nat, index: nat)
    requires h.victories.Keys == h.led.Keys
  {
    && term in h.led
    && index <= |h.led[term]|
    && (Ack(term, server, index) in h.acks || server == h.victories[term].leader)
  }

  ghost predicate AcksOk(h: History) {
    forall a :: a in h.acks ==>
      && a.term in h.led && a.index <= |h.led[a.term]|
      && forall k :: 0 <= k <= a.index ==> Ack(a.term, a.server, k) in h.acks
  }

  /** What a server held it still has, unless a later leader started without it. */
  ghost predicate StillHas(c: Core, t: nat, j: nat, m: nat)
    requires c.Shaped() && t in c.h.led && m <= |c.h.led[t]|
  {
    && j < |c.term| && t <= c.term[j]
    && (Has(c.h, c.log[j], t, m) || Lost(c.h, t, m, c.term[j]))
  }

  ghost predicate HeldNow(c: Core)
    requires c.Shaped() && c.h.victories.Keys == c.h.led.Keys
  {
    forall t: nat, j: nat, m: nat :: Held(c.h, t, j, m) ==> StillHas(c, t, j, m)
  }

  /** What a server held it still had when it voted, unless a leader in between started without it. */
  ghost predicate HadAtVote(h: History, t: nat, j: nat, m: nat, u: nat)
    requires t in h.led && m <= |h.led[t]| && u > t && Slot(u, j) in h.votes
  {
    || Has(h, h.votes[Slot(u, j)].log, t, m)
    || Lost(h, t, m, u - 1)
    || (u in h.victories && j !in h.victories[u].quorum)
  }

  ghost predicate HeldAtVote(h: History)
    requires h.victories.Keys == h.led.Keys
  {
    forall t: nat, j: nat, m: nat, u: nat :: Held(h, t, j, m) && u > t && Slot(u, j) in h.votes ==>
      HadAtVote(h, t, j, m, u)
  }

  ghost predicate LogInv(c: Core)
    requires ElectionInv(c)
  {
    && LogsOk(c)
    && AskedLogsOk(c.h)
    && LedsOk(c.h)
    && AcksOk(c.h)
    && HeldNow(c)
    && HeldAtVote(c.h)
  }

  //
  // The actions
  //

  function SetTerm(c: Core, i: nat, term: nat): Core
    requires i < |c.term|
  {
    c.(term := c.term[i := term])
  }

  function Bid(c: Core, i: nat): Core
    requires c.Shaped() && i < |c.term|
  {
    c.(term := c.term[i := c.term[i] + 1], h := c.h.Bid(Slot(c.term[i] + 1, i), c.log[i]))
  }

  function Vote(c: Core, v: nat, candidate: nat): Core
    requires c.Shaped() && v < |c.term|
  {
    c.(h := c.h.Vote(Slot(c.term[v], v), candidate, c.log[v]))
  }

  function Win(c: Core, i: nat): Core
    requires c.Shaped() && i < |c.term|
  {
    c.(h := c.h.Win(Slot(c.term[i], i), c.log[i], |c.term|))
  }

  function Lead(c: Core, i: nat, entries: seq<Entry>): Core
    requires c.Shaped() && i < |c.term|
  {
    c.(log := c.log[i := c.log[i] + entries], h := c.h.Lead(c.term[i], c.log[i] + entries))
  }

  function Accept(c: Core, j: nat, at: nat, batch: seq<Entry>): Core
    requires c.Shaped() && j < |c.term| && at <= |c.log[j]|
  {
    c.(log := c.log[j := MergeAt(c.log[j], at, batch)],
       h := c.h.Acknowledge(Slot(c.term[j], j), at + |batch|))
  }

  //
  // Histories only grow
  //

  ghost predicate Grows(h: History, h': History) {
    && h.bids.Keys <= h'.bids.Keys && (forall s :: s in h.bids ==> h'.bids[s] == h.bids[s])
    && h.votes.Keys <= h'.votes.Keys && (forall s :: s in h.votes ==> h'.votes[s] == h.votes[s])
    && h.victories.Keys <= h'.victories.Keys
    && (forall t :: t in h.victories ==> h'.victories[t] == h.victories[t])
    && h.led.Keys <= h'.led.Keys
    && h.acks <= h'.acks
  }

  ghost predicate LedGrows(h: History, h': History)
    requires Grows(h, h')
  {
    forall t :: t in h.led ==> h.led[t] <= h'.led[t]
  }

  lemma KnownGrows(h: History, h': History, log: seq<Entry>)
    requires Grows(h, h') && LedGrows(h, h') && Known(h, log)
    ensures Known(h', log)
  {
    forall k: nat | k < |log| ensures KnownAt(h', log, k) {
      assert KnownAt(h, log, k);
      PrefixTrans(log[..k + 1], h.led[log[k].term], h'.led[log[k].term]);
    }
  }

  lemma PrefixTrans<T>(a: seq<T>, b: seq<T>, c: seq<T>)
    requires a <= b && b <= c
    ensures a <= c
  {}

  lemma HasGrows(h: History, h': History, log: seq<Entry>, term: nat, index: nat)
    requires Grows(h, h') && LedGrows(h, h')
    requires term in h.led && index <= |h.led[term]|
    ensures term in h'.led && index <= |h'.led[term]|
    ensures h'.led[term][..index] == h.led[term][..index]
    ensures Has(h', log, term, index) <==> Has(h, log, term, index)
  {
    assert h.led[term] <= h'.led[term];
  }

  lemma LostGrows(h: History, h': History, term: nat, index: nat, until: nat, until': nat)
    requires Grows(h, h') && LedGrows(h, h')
    requires term in h.led && index <= |h.led[term]|
    requires Lost(h, term, index, until) && until <= until'
    ensures index <= |h'.led[term]| && Lost(h', term, index, until')
  {
    var u :| term < u <= until && u in h.victories && !Has(h, h.victories[u].start, term, index);
    HasGrows(h, h', h.victories[u].start, term, index);
    assert u in h'.victories && !Has(h', h'.victories[u].start, term, index);
  }

  /** Two known logs that end in the same term: the shorter is a prefix of the longer. */
  lemma SameTermPrefix(h: History, a: seq<Entry>, b: seq<Entry>)
    requires Known(h, a) && Known(h, b) && |a| <= |b|
    requires a != [] && TermOfLast(a) == TermOfLast(b)
    ensures a <= b
  {
    WholeKnown(h, a);
    WholeKnown(h, b);
  }

  /** A known log is a prefix of the log of the leader of its last term. */
  lemma WholeKnown(h: History, log: seq<Entry>)
    requires Known(h, log) && log != []
    ensures TermOfLast(log) in h.led && log <= h.led[TermOfLast(log)]
  {
    assert KnownAt(h, log, |log| - 1);
    assert log[..|log| - 1 + 1] == log;
  }

  lemma KnownAscends(h: History, log: seq<Entry>)
    requires h.victories.Keys == h.led.Keys && LedsOk(h) && Known(h, log)
    ensures TermsAscend(log)
  {
    if log != [] {
      WholeKnown(h, log);
      assert LedOk(h, TermOfLast(log));
    }
  }

  //
  // Leader completeness, in one state
  //

  /** An up-to-date candidate has what its voter has, given that the leaders in between have it. */
  lemma UpToDateHas(h: History, term: nat, index: nat, ballot: seq<Entry>, start: seq<Entry>, u: nat)
    requires h.victories.Keys == h.led.Keys && LedsOk(h)
    requires term in h.led && 1 <= index <= |h.led[term]|
    requires h.led[term][index - 1].term == term
    requires Known(h, ballot) && Known(h, start) && TermsUpTo(start, u - 1)
    requires Has(h, ballot, term, index) && UpToDate(start, ballot)
    requires forall w :: term < w < u && w in h.victories ==> Has(h, h.victories[w].start, term, index)
    ensures Has(h, start, term, index)
  {
    var p := h.led[term][..index];
    assert ballot[index - 1] == p[index - 1];
    KnownAscends(h, ballot);
    if TermOfLast(start) == TermOfLast(ballot) {
      SameTermPrefix(h, ballot, start);
    } else {
      var w := TermOfLast(start);
      assert start != [] && w > TermOfLast(ballot) >= term;
      WholeKnown(h, start);
      assert LedOk(h, w);
      PrefixTrans(p, h.victories[w].start, h.led[w]);
      assert h.led[w][|start| - 1].term == w && h.led[w][index - 1].term == term;
    }
  }

  /** Every later leader started with what a majority held, if that ends in an entry of its term. */
  lemma {:induction false} CompletenessCore(
    c: Core, term: nat, index: nat, quorum: set<nat>, u: nat)
    requires ElectionInv(c) && LogInv(c)
    requires term in c.h.led && 1 <= index <= |c.h.led[term]|
    requires c.h.led[term][index - 1].term == term
    requires Majority(quorum, |c.term|)
    requires forall q :: q in quorum ==> Held(c.h, term, q, index)
    requires term < u && u in c.h.victories
    ensures Has(c.h, c.h.victories[u].start, term, index)
    decreases u
  {
    var h := c.h;
    forall w | term < w < u && w in h.victories
      ensures Has(h, h.victories[w].start, term, index)
    {
      CompletenessCore(c, term, index, quorum, w);
    }
    assert !Lost(h, term, index, u - 1);
    assert VictoryOk(h, u, |c.term|);
    var v := MajoritiesMeet(quorum, h.victories[u].quorum, |c.term|);
    assert Held(h, term, v, index);
    var ballot := h.votes[Slot(u, v)];
    assert HadAtVote(h, term, v, index, u);
    assert VoteOk(c, Slot(u, v)) && BallotLogOk(h, Slot(u, v));
    assert BidLogOk(h, Slot(u, h.victories[u].leader));
    UpToDateHas(h, term, index, ballot.log, h.victories[u].start, u);
  }
}
