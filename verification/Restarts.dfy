/**
 The life of a server, which stops and starts again between any two handlers: it keeps its term, its vote
 and what it handed to its state machine, but no session, no quick index and perhaps no log.
 */
module Restarts {
  import opened Types
  import opened Log
  import opened Handlers
  import opened HandedOver
  import opened Continuity
  import ServerRuns

  /** A handler, or a restart with whatever configuration was written last. */
  datatype Turn =
    | Runs(event: ServerRuns.Event)
    | Restarting(servers: seq<Id>, logLost: bool)

  /** What is written before a handler ends. */
  function Written(n: Node): Persistent {
    Persistent(n.term, n.votedFor, n.commitIndex)
  }

  function Restart(n: Node, servers: seq<Id>, logLost: bool): Node {
    Restarted(n.id, servers, Written(n), if logLost then Log(1, []) else n.log).(machine := n.machine)
  }

  predicate TurnAt(ns: seq<Node>, turns: seq<Turn>, k: nat)
    requires |ns| == |turns| + 1 && k < |turns|
  {
    match turns[k]
    case Runs(event) => ServerRuns.Goes(ns[k], event, ns[k + 1])
    case Restarting(servers, logLost) => ns[k + 1] == Restart(ns[k], servers, logLost)
  }

  ghost predicate Life(ns: seq<Node>, turns: seq<Turn>) {
    && |ns| == |turns| + 1
    && ns[0] == Started(ns[0].id, ns[0].servers)
    && forall k: nat {:trigger TurnAt(ns, turns, k)} :: k < |turns| ==> TurnAt(ns, turns, k)
  }

  /** Terms, votes and what was handed over stay. */
  predicate Survives(n: Node, r: Node) {
    && r.id == n.id && VoteLasts(n, r)
    && n.machine <= r.machine && n.commitIndex <= r.commitIndex
  }

  lemma RestartSurvives(n: Node, servers: seq<Id>, logLost: bool)
    requires n.Retains() && InOrder(n)
    ensures var r := Restart(n, servers, logLost); r.Retains() && InOrder(r) && Survives(n, r)
  {}

  /** A log that reaches the committed index is kept; another is emptied, and begins there. */
  lemma RestartKeepsLog(n: Node, servers: seq<Id>, logLost: bool)
    requires n.Retains()
    ensures var r := Restart(n, servers, logLost);
      && r.log.End() >= r.commitIndex
      && (!logLost && n.commitIndex < n.log.End() ==> r.log == n.log)
      && (r.log == n.log || r.log == Log(1, []) || r.log == Log(n.commitIndex, []))
      && r.sessions == [] && r.role == Follower && r.quickCommit == r.commitIndex
  {}

  lemma TurnSurvives(ns: seq<Node>, turns: seq<Turn>, k: nat)
    requires Life(ns, turns) && k < |turns| && ns[k].Retains() && InOrder(ns[k])
    ensures ns[k + 1].Retains() && InOrder(ns[k + 1]) && Survives(ns[k], ns[k + 1])
  {
    assert TurnAt(ns, turns, k);
    match turns[k]
    case Restarting(servers, logLost) => RestartSurvives(ns[k], servers, logLost);
    case Runs(event) => EventSurvives(ns[k], event, ns[k + 1]);
  }

  lemma EventSurvives(n: Node, e: ServerRuns.Event, r: Node)
    requires n.Retains() && InOrder(n) && ServerRuns.Goes(n, e, r)
    ensures r.Retains() && InOrder(r) && Survives(n, r)
  {
    ServerRuns.NextProgress(n, e);
    NextFollows(n, e);
    ProgressInOrder(n, r);
  }

  /**
   Through any number of restarts a server hands its state machine the indices 1, 2, 3 and so on up to its
   committed index, none skipped and none repeated, and its next commit reads what its log has.
   */
  lemma {:induction false} HandsOverOnce(ns: seq<Node>, turns: seq<Turn>, k: nat)
    requires Life(ns, turns) && k < |ns|
    ensures ns[k].Retains() && InOrder(ns[k])
  {
    if k > 0 {
      HandsOverOnce(ns, turns, k - 1);
      TurnSurvives(ns, turns, k - 1);
    }
  }

  /** Through any number of restarts a server votes once in a term, and takes nothing back. */
  lemma {:induction false} VotesOnce(ns: seq<Node>, turns: seq<Turn>, a: nat, b: nat)
    requires Life(ns, turns) && a <= b < |ns|
    ensures Survives(ns[a], ns[b])
    decreases b - a
  {
    if a < b {
      VotesOnce(ns, turns, a, b - 1);
      HandsOverOnce(ns, turns, b - 1);
      TurnSurvives(ns, turns, b - 1);
    }
  }
}
