/**
 Each kind of step of a server, seen as actions on the history.
 */
module GroupCore {
  import opened Types
  import opened Log
  import opened Handlers
  import opened Quorums
  import opened Core
  import opened CoreActions
  import opened Group
  import opened GroupInv

  /** What a step must show about the history. */
  ghost predicate CoreKept(g: Group, g': Group, i: nat) {
    && ElectionInv(CoreOf(g'))
    && OnlyBy(g.record.h, g'.record.h, i)
    && (!g'.record.unvoted ==> LogInv(CoreOf(g')) && LedGrows(g.record.h, g'.record.h))
  }

  ghost predicate Stepped(g: Group, g': Group, i: nat, n': Node, h': History) {
    && i < |g.nodes|
    && g'.nodes == g.nodes[i := n']
    && g'.record.h == h'
    && (!g'.record.unvoted ==> !g.record.unvoted)
  }

  lemma CoreUpdated(g: Group, g': Group, i: nat, n': Node, h': History)
    requires Stepped(g, g', i, n', h')
    ensures CoreOf(g') == Core(CoreOf(g).term[i := n'.term], CoreOf(g).log[i := n'.log.entries], h')
  {
    assert Terms(g'.nodes) == Terms(g.nodes)[i := n'.term];
    assert Logs(g'.nodes) == Logs(g.nodes)[i := n'.log.entries];
  }

  /** The term rises, or stays, and the log stays. */
  lemma TermCore(g: Group, g': Group, i: nat, n': Node)
    requires Inv(g) && Stepped(g, g', i, n', g.record.h)
    requires n'.term >= g.nodes[i].term && n'.log.entries == g.nodes[i].log.entries
    ensures CoreKept(g, g', i)
  {
    var c := CoreOf(g);
    CoreUpdated(g, g', i, n', g.record.h);
    assert CoreOf(g') == SetTerm(c, i, n'.term);
    SetTermKeepsElections(c, i, n'.term);
    if !g'.record.unvoted {
      SetTermKeepsLogs(c, i, n'.term);
    }
  }

  /** A leader's log grows, or stays. */
  lemma LeadCore(g: Group, g': Group, i: nat, n': Node, entries: seq<Entry>)
    requires Inv(g) && i < |g.nodes| && n'.id == i
    requires Stepped(g, g', i, n', ObserveLead(g.record.h, g.nodes[i], n'))
    requires n'.term == g.nodes[i].term && n'.log.entries == g.nodes[i].log.entries + entries
    requires n'.role == Leader
    requires forall k :: 0 <= k < |entries| ==> entries[k].term == n'.term
    requires !g'.record.unvoted ==> g.nodes[i].role == Leader
    ensures CoreKept(g, g', i)
  {
    var c := CoreOf(g);
    assert NodeOk(g, i);
    CoreUpdated(g, g', i, n', ObserveLead(g.record.h, g.nodes[i], n'));
    if g.record.h.LedBy(n'.term, i) {
      assert CoreOf(g') == Lead(c, i, entries);
      LeadKeepsElections(c, i, entries);
    } else {
      LogChangesElections(c, CoreOf(g'));
    }
    if !g'.record.unvoted {
      assert LeaderOk(g.nodes[i], g.record);
      LeadKeepsLogs(c, i, entries);
    }
  }

  /** Elections do not depend on the logs that servers have now. */
  lemma LogChangesElections(c: Core, c': Core)
    requires ElectionInv(c) && c' == c.(log := c'.log) && |c'.log| == |c.log|
    ensures ElectionInv(c')
  {
    VotesStayOk(c, c');
    assert forall t :: t in c.h.victories ==> VictoryOk(c.h, t, |c.term|);
  }

  /** The server becomes candidate. */
  lemma BidCore(g: Group, g': Group, i: nat, n': Node)
    requires Inv(g) && i < |g.nodes|
    requires Stepped(g, g', i, n', g.record.h.Bid(Slot(n'.term, i), g.nodes[i].log.entries))
    requires n'.term == g.nodes[i].term + 1 && n'.log.entries == g.nodes[i].log.entries
    ensures CoreKept(g, g', i)
  {
    var c := CoreOf(g);
    var h' := g.record.h.Bid(Slot(n'.term, i), g.nodes[i].log.entries);
    CoreUpdated(g, g', i, n', h');
    assert CoreOf(g') == Bid(c, i);
    BidKeepsElections(c, i);
    if !g'.record.unvoted {
      BidKeepsLogs(c, i);
    }
  }

  /** A candidate wins, and appends what it appends at once. */
  lemma WinCore(c: Core, c': Core, i: nat, entries: seq<Entry>)
    requires ElectionInv(c) && i < |c.term| && CanWin(c, i)
    requires c' == Lead(Win(c, i), i, entries)
    requires forall k :: 0 <= k < |entries| ==> entries[k].term == c.term[i]
    ensures ElectionInv(c') && OnlyBy(c.h, c'.h, i)
    ensures LogInv(c) ==> LogInv(c') && LedGrows(c.h, c'.h)
  {
    var c1 := Win(c, i);
    WinKeepsElections(c, i);
    LeadKeepsElections(c1, i, entries);
    if LogInv(c) {
      WinKeepsLogs(c, i);
      LeadKeepsLogs(c1, i, entries);
    }
  }

  /** A server votes, in the term it has or one it enters now. */
  lemma VoteCore(g: Group, g': Group, i: nat, n': Node, candidate: nat)
    requires Inv(g) && i < |g.nodes|
    requires Stepped(g, g', i, n', g.record.h.Vote(Slot(n'.term, i), candidate, n'.log.entries))
    requires n'.term >= g.nodes[i].term && n'.log.entries == g.nodes[i].log.entries
    requires var slot := Slot(n'.term, candidate);
      slot in g.record.h.bids && UpToDate(g.record.h.bids[slot], n'.log.entries)
    ensures CoreKept(g, g', i)
  {
    var c := CoreOf(g);
    CoreUpdated(g, g', i, n', g.record.h.Vote(Slot(n'.term, i), candidate, n'.log.entries));
    assert CoreOf(g') == Vote(SetTerm(c, i, n'.term), i, candidate);
    EntersAndVotes(c, i, n'.term, candidate);
  }

  lemma EntersAndVotes(c: Core, i: nat, term: nat, candidate: nat)
    requires ElectionInv(c) && i < |c.term| && term >= c.term[i] && CanVote(SetTerm(c, i, term), i, candidate)
    ensures var c' := Vote(SetTerm(c, i, term), i, candidate);
      && ElectionInv(c') && OnlyBy(c.h, c'.h, i)
      && (LogInv(c) ==> LogInv(c') && LedGrows(c.h, c'.h))
  {
    var c1 := SetTerm(c, i, term);
    SetTermKeepsElections(c, i, term);
    VoteKeepsElections(c1, i, candidate);
    if LogInv(c) {
      SetTermKeepsLogs(c, i, term);
      VoteKeepsLogs(c1, i, candidate);
    }
  }

  /** A server accepts entries, in the term it has or one it enters now. */
  lemma AcceptCore(g: Group, g': Group, i: nat, n': Node, at: nat, batch: seq<Entry>)
    requires Inv(g) && i < |g.nodes| && at <= |g.nodes[i].log.entries|
    requires Stepped(g, g', i, n', g.record.h.Acknowledge(Slot(n'.term, i), at + |batch|))
    requires n'.term >= g.nodes[i].term
    requires n'.log.entries == MergeAt(g.nodes[i].log.entries, at, batch)
    requires !g'.record.unvoted ==> CanAccept(SetTerm(CoreOf(g), i, n'.term), i, at, batch)
    ensures CoreKept(g, g', i)
  {
    var c := CoreOf(g);
    CoreUpdated(g, g', i, n', g.record.h.Acknowledge(Slot(n'.term, i), at + |batch|));
    var c1 := SetTerm(c, i, n'.term);
    SetTermKeepsElections(c, i, n'.term);
    assert CoreOf(g') == Accept(c1, i, at, batch);
    AcceptKeepsElections(c1, i, at, batch);
    if !g'.record.unvoted {
      SetTermKeepsLogs(c, i, n'.term);
      AcceptKeepsLogs(c1, i, at, batch);
    }
  }
}
