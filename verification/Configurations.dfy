/**
 Which configuration is in force: what a server goes over to when it takes over, when it commits, and
 when servers join and leave.
 */
module Configurations {
  import opened Types
  import opened Log
  import opened Handlers
  import opened NodeFacts
  import opened HandedOver
  import opened Quorums
  import opened Membership

  //
  // The last configuration of a log
  //

  /** The servers of the last configuration among the entries, if there is one. */
  function LastServers(entries: seq<Entry>): Option<seq<Id>> {
    if entries == [] then None
    else
      var value := entries[|entries| - 1].value;
      if value.Configuration? then Some(value.servers) else LastServers(entries[..|entries| - 1])
  }

  /** The servers of the last configuration among the entries, or else these. */
  function ServersAfter(entries: seq<Entry>, servers: seq<Id>): seq<Id> {
    match LastServers(entries)
    case Some(last) => last
    case None => servers
  }

  /** The entries of the log from an index on, as far as it has them. */
  function From(log: Log, index: nat): seq<Entry> {
    if index <= log.start then log.entries
    else if index >= log.End() then []
    else log.entries[index - log.start..]
  }

  lemma {:induction false} LastServersConcat(a: seq<Entry>, b: seq<Entry>)
    ensures LastServers(a + b) == if LastServers(b).Some? then LastServers(b) else LastServers(a)
    decreases |b|
  {
    if b == [] {
      assert a + b == a;
    } else {
      LastServersConcat(a, b[..|b| - 1]);
      assert (a + b)[..|a + b| - 1] == a + b[..|b| - 1];
    }
  }

  lemma LastServersOne(e: Entry)
    ensures LastServers([e]) == if e.value.Configuration? then Some(e.value.servers) else None
  {
    assert [e][..0] == [];
  }

  lemma LastServersFirst(e: Entry, rest: seq<Entry>)
    ensures LastServers([e] + rest)
      == if LastServers(rest).Some? then LastServers(rest)
         else if e.value.Configuration? then Some(e.value.servers) else None
  {
    LastServersConcat([e], rest);
    LastServersOne(e);
  }

  lemma FromNext(log: Log, index: nat)
    requires log.start <= index < log.End()
    ensures From(log, index) == [log.At(index)] + From(log, index + 1)
  {}

  //
  // A new leader
  //

  lemma {:induction false} DetectGoesOver(n: Node, index: nat)
    requires n.log.start <= index
    ensures WentTo(n, DetectConfigurations(n, index), From(n.log, index))
    decreases n.log.End() - index
  {
    if index < n.log.End() {
      var e := n.log.At(index);
      var n1 := Detected(n, e.value);
      DetectGoesOver(n1, index + 1);
      FromNext(n.log, index);
      WentToNext(n, n1, DetectConfigurations(n1, index + 1), e, From(n.log, index + 1));
    }
  }

  lemma WentToNext(n: Node, n1: Node, r: Node, e: Entry, rest: seq<Entry>)
    requires n1 == Detected(n, e.value) && WentTo(n1, r, rest)
    ensures WentTo(n, r, [e] + rest)
  {
    LastServersFirst(e, rest);
  }

  /** The server has gone over to the last configuration of these entries, which is not committed. */
  predicate WentTo(n: Node, r: Node, entries: seq<Entry>) {
    && r.servers == ServersAfter(entries, n.servers)
    && r.configurationChanging == (n.configurationChanging || LastServers(entries).Some?)
  }

  /**
   A new leader goes over to the last configuration that its log has above its quick index, and takes no
   other change before that is committed. It stays with its own configuration if there is none.
   */
  lemma TakeOverGoesOver(n: Node)
    requires n.Retains()
    ensures var r := TakeOver(n);
      && r.log == (if n.quickCommit == 0 then n.log.Append(InitialConfiguration(n)) else n.log)
      && WentTo(n, r, From(r.log, n.quickCommit + 1))
  {
    var n1 := if n.quickCommit == 0 then AddInitialConfiguration(n) else n;
    var n2 := n1.(peers := StartPeers(n1.peers, n1.log.End()));
    DetectGoesOver(n2, n2.quickCommit + 1);
    TakenOver(n, n2, TakeOver(n));
  }

  lemma TakenOver(n: Node, n1: Node, r: Node)
    requires n.Retains() && n1.servers == n.servers && r.log == n1.log
    requires n1.log == (if n.quickCommit == 0 then n.log.Append(InitialConfiguration(n)) else n.log)
    requires n1.configurationChanging == (n.configurationChanging || n.quickCommit == 0)
    requires WentTo(n1, r, From(r.log, n.quickCommit + 1))
    ensures WentTo(n, r, From(r.log, n.quickCommit + 1))
  {
    if n.quickCommit == 0 {
      FirstIsLast(n);
    }
  }

  lemma FirstIsLast(n: Node)
    requires n.Retains() && n.quickCommit == 0
    ensures LastServers(From(n.log.Append(InitialConfiguration(n)), 1)) == Some(n.servers)
  {
    LastServersConcat(n.log.entries, [InitialConfiguration(n)]);
    LastServersOne(InitialConfiguration(n));
    assert From(n.log.Append(InitialConfiguration(n)), 1) == n.log.entries + [InitialConfiguration(n)];
  }

  //
  // Commits
  //

  /** The entries that are committed on the way to the later state. */
  function Committed(n: Node, r: Node): seq<Entry> {
    if n.log.start <= n.commitIndex + 1 <= r.commitIndex < n.log.End()
    then n.log.Slice(n.commitIndex + 1, r.commitIndex + 1) else []
  }

  predicate Names(entries: seq<Entry>, id: Id) {
    exists k :: 0 <= k < |entries| && entries[k].value.Configuration? && id in entries[k].value.servers
  }

  /**
   The server has gone over to the last configuration among the entries, if there is one; no change is
   under way then; and it has caught up if one of them names it.
   */
  predicate WentOver(n: Node, r: Node, entries: seq<Entry>) {
    && r.servers == ServersAfter(entries, n.servers)
    && r.configurationChanging == (n.configurationChanging && LastServers(entries).None?)
    && r.catchingUp == (n.catchingUp && !Names(entries, n.id))
    && r.id == n.id
  }

  lemma CommitNextGoesOver(n: Node)
    requires n.Retains() && CommitDue(n)
    ensures WentOver(n, CommitNext(n), [n.log.At(n.commitIndex + 1)])
  {
    LastServersOne(n.log.At(n.commitIndex + 1));
    var e := n.log.At(n.commitIndex + 1);
    assert [e][0] == e;
  }

  lemma WentOverTrans(n: Node, m: Node, r: Node, e: Entry, rest: seq<Entry>)
    requires WentOver(n, m, [e]) && WentOver(m, r, rest)
    ensures WentOver(n, r, [e] + rest)
  {
    LastServersFirst(e, rest);
    LastServersOne(e);
    NamesFirst(e, rest, n.id);
  }

  lemma NamesFirst(e: Entry, rest: seq<Entry>, id: Id)
    ensures Names([e] + rest, id) <==> Names([e], id) || Names(rest, id)
  {
    if Names(rest, id) {
      var k :| 0 <= k < |rest| && rest[k].value.Configuration? && id in rest[k].value.servers;
      assert ([e] + rest)[k + 1] == rest[k];
    }
    if Names([e], id) {
      assert ([e] + rest)[0] == e;
    }
    if Names([e] + rest, id) {
      var k :| 0 <= k < |[e] + rest| && ([e] + rest)[k].value.Configuration? && id in ([e] + rest)[k].value.servers;
      assert if k == 0 then [e][0] == ([e] + rest)[k] else rest[k - 1] == ([e] + rest)[k];
    }
  }

  lemma {:induction false} CommitEntriesGoOver(n: Node)
    requires n.Retains()
    ensures WentOver(n, CommitEntries(n), Committed(n, CommitEntries(n)))
    decreases n.quickCommit - n.commitIndex
  {
    if CommitDue(n) {
      var m, r := CommitNext(n), CommitEntries(n);
      CommitEntriesHands(m);
      CommitEntriesGoOver(m);
      CommitNextGoesOver(n);
      WentOverTrans(n, m, r, n.log.At(n.commitIndex + 1), Committed(m, r));
      CommittedFirst(n, m, r);
    }
  }

  lemma CommittedFirst(n: Node, m: Node, r: Node)
    requires n.log.start <= n.commitIndex + 1 < n.log.End() && m.log == n.log
    requires m.commitIndex == n.commitIndex + 1 <= r.commitIndex < n.log.End()
    ensures Committed(n, r) == [n.log.At(n.commitIndex + 1)] + Committed(m, r)
  {}

  /** A commit goes over to the last configuration that it commits, even if the log has a later one. */
  lemma CommitGoesOver(n: Node, index: nat)
    requires n.Retains()
    ensures WentOver(n, Commit(n, index), Committed(n, Commit(n, index)))
  {
    var n1 := if index > n.quickCommit then n.(quickCommit := index) else n;
    LocalCommitGoesOver(n1);
    WentOverLike(n, n1, LocalCommit(n1));
  }

  lemma WentOverLike(n: Node, n1: Node, r: Node)
    requires n1 == n.(quickCommit := n1.quickCommit) && WentOver(n1, r, Committed(n1, r))
    ensures WentOver(n, r, Committed(n, r))
  {}

  lemma LocalCommitGoesOver(n: Node)
    requires n.Retains()
    ensures WentOver(n, LocalCommit(n), Committed(n, LocalCommit(n)))
  {
    if CommitDue(n) {
      CommitEntriesGoOver(n);
      assert Committed(n, LocalCommit(n)) == Committed(n, CommitEntries(n));
    } else {
      assert Committed(n, n) == [];
    }
  }

  //
  // Joins and leaves
  //

  /** A leader has appended this configuration, and has gone over to it. */
  predicate Changed(n: Node, r: Node, servers: seq<Id>) {
    && r.log == n.log.(entries := n.log.entries + [Entry(n.term, Configuration(servers, |servers|), None, 0)])
    && r.servers == servers && r.role == n.role && r.term == n.term
  }

  /** No further change is taken before this one is committed, which takes other servers. */
  ghost predicate HoldsOthersBack(n: Node, r: Node) {
    Tracks(n) && Distinct(r.servers) && (exists id :: id in r.servers && id != n.id) ==> r.configurationChanging
  }

  lemma ChangeIs(n: Node, servers: seq<Id>)
    requires n.Retains()
    ensures var r := CommitAlone(ChangeServers(n, servers));
      Changed(n, r, servers) && HoldsOthersBack(n, r)
  {
    var n1 := ChangeServers(n, servers);
    ChangedServers(n, servers);
    CommitAloneKeeps(n1);
    if Tracks(n) && Distinct(servers) && exists id :: id in servers && id != n.id {
      OthersLeft(n, servers);
    }
  }

  lemma CommitAloneKeeps(n: Node)
    requires n.Retains()
    ensures SameButCommitted(n, CommitAlone(n)) && (n.peers != [] ==> CommitAlone(n) == n)
  {
    if n.peers == [] {
      CommitKeepsLog(n, n.log.End() - 1);
    }
  }

  predicate SameButCommitted(n: Node, r: Node) {
    r.log == n.log && r.term == n.term && r.role == n.role
  }

  lemma CommitKeepsLog(n: Node, index: nat)
    requires n.Retains()
    ensures SameButCommitted(n, Commit(n, index))
  {
    CommitHands(n, index);
    CommitKeepsTerm(n, index);
  }

  lemma OthersLeft(n: Node, servers: seq<Id>)
    requires Tracks(n) && Distinct(servers) && exists id :: id in servers && id != n.id
    ensures ChangeServers(n, servers).peers != []
  {
    var n1 := n.(log := n.log.Append(Configure(n, servers)));
    ReconfigureTracks(n1, servers);
    var id :| id in servers && id != n.id;
    assert id in PeerIds(Reconfigure(n1, servers).peers);
  }

  /** These are the servers without the first occurrence of the id. */
  predicate OneLess(servers: seq<Id>, less: seq<Id>, id: Id) {
    exists i :: 0 <= i < |servers| && servers[i] == id && id !in servers[..i]
                && less == servers[..i] + servers[i + 1..]
  }

  lemma {:induction false} WithoutOne(servers: seq<Id>, id: Id)
    requires id in servers
    ensures OneLess(servers, Without(servers, id), id)
  {
    if servers[0] == id {
      assert servers[..0] + servers[1..] == Without(servers, id);
    } else {
      WithoutOne(servers[1..], id);
      OneLessNext(servers, Without(servers[1..], id), id);
    }
  }

  lemma OneLessNext(servers: seq<Id>, less: seq<Id>, id: Id)
    requires servers != [] && servers[0] != id && OneLess(servers[1..], less, id)
    ensures OneLess(servers, [servers[0]] + less, id)
  {
    var rest := servers[1..];
    var i :| 0 <= i < |rest| && rest[i] == id && id !in rest[..i] && less == rest[..i] + rest[i + 1..];
    SlicesNext(servers, i);
    var j := i + 1;
    assert servers[j] == id && id !in servers[..j] && [servers[0]] + less == servers[..j] + servers[j + 1..];
  }

  lemma SlicesNext(servers: seq<Id>, i: nat)
    requires i + 1 < |servers|
    ensures servers[..i + 1] == [servers[0]] + servers[1..][..i] && servers[i + 2..] == servers[1..][i + 1..]
    ensures [servers[0]] + (servers[1..][..i] + servers[1..][i + 1..]) == servers[..i + 1] + servers[i + 2..]
  {}

  /** The leader has no change under way. */
  predicate TakesChanges(n: Node) {
    n.role == Leader && !n.configurationChanging
  }

  /**
   A leader with no change under way removes exactly the server that asks to leave, if it is a member,
   and tells it the configuration if it is none. Nothing else changes a server.
   */
  lemma LeaveExactly(n: Node, serverId: Id)
    requires n.Retains()
    ensures var (r, response) := HandleLeave(n, serverId);
      && response.serverId == n.id && response.leaderId == n.leaderId
      && (response.accepted <==> TakesChanges(n))
      && if TakesChanges(n) && serverId in n.servers then
           && Changed(n, r, r.servers) && HoldsOthersBack(n, r)
           && OneLess(n.servers, r.servers, serverId) && response.configuration.None?
           && (Distinct(n.servers) ==> Members(r.servers) == Members(n.servers) - {serverId})
         else
           r == n && response.configuration == if TakesChanges(n) then Some(n.servers) else None
  {
    if TakesChanges(n) && serverId in n.servers {
      ChangeIs(n, Without(n.servers, serverId));
      WithoutOne(n.servers, serverId);
      if Distinct(n.servers) {
        WithoutIs(n.servers, serverId);
      }
    }
  }

  /** The log has what a server at this index needs: it does not miss compacted entries. */
  predicate Reaches(log: Log, index: nat) {
    log.start == 1 || log.start <= index
  }

  /** The server is new, and its log ends near the end of the leader's, with which it agrees. */
  predicate CloseEnough(n: Node, request: JoinRequest, gap: nat) {
    && request.serverId !in n.servers && Reaches(n.log, request.lastLogIndex)
    && FitsAt(n.log, request.lastLogIndex, request.lastLogTerm)
    && n.log.End() - 1 - request.lastLogIndex < gap
  }

  /**
   A leader with no change under way adds exactly the server that asks to join, if it is new and close
   enough. Else it tells it what it lacks, and nothing changes.
   */
  lemma JoinExactly(n: Node, request: JoinRequest, gap: nat)
    requires n.Retains()
    ensures var (r, response) := HandleJoin(n, request, gap);
      && response.serverId == n.id && response.leaderId == n.leaderId
      && (response.accepted <==> TakesChanges(n))
      && (response.alreadyJoined <==> TakesChanges(n) && request.serverId in n.servers)
      && (response.catchingUp <==> TakesChanges(n) && request.serverId !in n.servers)
      && (response.transfer == Some(Snapshot) <==> response.catchingUp && !Reaches(n.log, request.lastLogIndex))
      && (response.rewindRepeat <==>
            && response.catchingUp && Reaches(n.log, request.lastLogIndex)
            && !FitsAt(n.log, request.lastLogIndex, request.lastLogTerm))
      && (response.transfer == Some(LogTail) <==>
            && response.catchingUp && response.transfer != Some(Snapshot) && !response.rewindRepeat
            && !CloseEnough(n, request, gap))
      && if TakesChanges(n) && CloseEnough(n, request, gap) then
           && Changed(n, r, n.servers + [request.serverId]) && HoldsOthersBack(n, r)
           && Members(r.servers) == Members(n.servers) + {request.serverId}
         else r == n
  {
    if TakesChanges(n) && CloseEnough(n, request, gap) {
      ChangeIs(n, n.servers + [request.serverId]);
    }
  }

  //
  // Quorums
  //

  function Members(servers: seq<Id>): set<Id> {
    set id | id in servers
  }

  predicate MajorityOf(quorum: set<Id>, servers: set<Id>) {
    quorum <= servers && 2 * |quorum| > |servers|
  }

  /** Majorities of sets that differ by one server meet. */
  lemma OneApart(small: set<Id>, large: set<Id>, x: Id, a: set<Id>, b: set<Id>)
    requires large == small + {x} && x !in small
    requires MajorityOf(a, small) && MajorityOf(b, large)
    ensures a * b != {}
  {
    assert |large| == |small| + 1;
    if a * b == {} {
      assert |a + b| == |a| + |b|;
      SubsetCounted(a + b, large);
    }
  }

  lemma {:induction false} MembersCounted(servers: seq<Id>)
    requires Distinct(servers)
    ensures |Members(servers)| == |servers|
  {
    if servers != [] {
      MembersCounted(servers[1..]);
      assert Members(servers) == {servers[0]} + Members(servers[1..]);
      assert servers[0] !in servers[1..];
    }
  }

  /** What a server counts majorities of, its peers and itself, is its configuration. */
  lemma PeersCounted(n: Node)
    requires Tracks(n) && n.id in n.servers
    ensures |n.peers| + 1 == |Members(n.servers)|
  {
    MembersCounted(PeerIds(n.peers));
    MembersCounted(n.servers);
    assert Members(n.servers) == Members(PeerIds(n.peers)) + {n.id};
  }

  lemma ChangedServers(n: Node, servers: seq<Id>)
    requires n.Retains()
    ensures CommitAlone(ChangeServers(n, servers)).servers == servers
  {
    var n1 := ChangeServers(n, servers);
    assert LastIsInForce(n1) && n1.servers == servers;
    CommitsAloneLast(n1, CommitAlone(n1));
  }

  lemma CommitsAloneLast(n: Node, r: Node)
    requires n.Retains() && LastIsInForce(n) && r == CommitAlone(n)
    ensures r.servers == n.servers
  {
    CommitAloneIs(n, r);
    if n.peers == [] {
      CommitsLast(n, n.log.End() - 1, r);
    }
  }

  lemma CommitAloneIs(n: Node, r: Node)
    requires n.Retains() && r == CommitAlone(n)
    ensures r == if n.peers == [] then Commit(n, n.log.End() - 1) else n
  {}

  /** The last entry of the log is the configuration in force. */
  predicate LastIsInForce(n: Node) {
    && n.log.start < n.log.End()
    && var value := n.log.At(n.log.End() - 1).value;
       value.Configuration? && value.servers == n.servers
  }

  /** When everything is committed up to a configuration at the end of the log, that is the one in force. */
  lemma CommitsLast(n: Node, index: nat, r: Node)
    requires n.Retains() && LastIsInForce(n) && index == n.log.End() - 1 && r == Commit(n, index)
    ensures r.servers == n.servers
  {
    CommitHands(n, index);
    CommitGoesOver(n, index);
    EndsCommitted(n, r);
  }

  lemma EndsCommitted(n: Node, r: Node)
    requires LastIsInForce(n) && (r.commitIndex <= n.commitIndex || r.commitIndex == n.log.End() - 1)
    ensures ServersAfter(Committed(n, r), n.servers) == n.servers
  {
    var entries := Committed(n, r);
    if entries != [] {
      assert entries[|entries| - 1] == n.log.At(n.log.End() - 1);
    }
  }

  lemma SameMembersMeet(servers: set<Id>, a: set<Id>, b: set<Id>)
    requires MajorityOf(a, servers) && MajorityOf(b, servers)
    ensures a * b != {}
  {
    if a * b == {} {
      assert |a + b| == |a| + |b|;
      SubsetCounted(a + b, servers);
    }
  }

  /** A majority before a server's request to join meets any majority after it. */
  lemma JoinQuorumsMeet(n: Node, request: JoinRequest, gap: nat, a: set<Id>, b: set<Id>)
    requires n.Retains() && Distinct(n.servers)
    requires MajorityOf(a, Members(n.servers))
    requires MajorityOf(b, Members(HandleJoin(n, request, gap).0.servers))
    ensures a * b != {}
  {
    var servers := n.servers + [request.serverId];
    ChangedServers(n, servers);
    JoinedServers(n, request, gap);
    if HandleJoin(n, request, gap).0.servers == n.servers {
      SameMembersMeet(Members(n.servers), a, b);
    } else {
      assert Members(servers) == Members(n.servers) + {request.serverId};
      OneApart(Members(n.servers), Members(servers), request.serverId, a, b);
    }
  }

  lemma JoinedServers(n: Node, request: JoinRequest, gap: nat)
    requires n.Retains()
    ensures var r := HandleJoin(n, request, gap).0;
      || r.servers == n.servers
      || (request.serverId !in n.servers && r.servers == n.servers + [request.serverId])
  {
    ChangedServers(n, n.servers + [request.serverId]);
  }

  /** A majority before a server's request to leave meets any majority after it. */
  lemma LeaveQuorumsMeet(n: Node, serverId: Id, a: set<Id>, b: set<Id>)
    requires n.Retains() && Distinct(n.servers)
    requires MajorityOf(a, Members(n.servers))
    requires MajorityOf(b, Members(HandleLeave(n, serverId).0.servers))
    ensures a * b != {}
  {
    var servers := Without(n.servers, serverId);
    ChangedServers(n, servers);
    WithoutIs(n.servers, serverId);
    var after := HandleLeave(n, serverId).0.servers;
    if after == n.servers {
      SameMembersMeet(Members(n.servers), a, b);
    } else {
      assert Members(n.servers) == Members(servers) + {serverId};
      OneApart(Members(servers), Members(n.servers), serverId, b, a);
      assert a * b == b * a;
    }
  }
}
