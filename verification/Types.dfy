/**
 Values that the servers of a group, and their clients, exchange and store.
 */
module Types {

  /** Servers and clients are named by numbers instead of UUIDs. */
  type Id = nat

  /** The largest u64, which stands for "the term of this index is not known any more". */
  const TERM_UNKNOWN: nat := 0xFFFF_FFFF_FFFF_FFFF

  datatype Option<+T> = None | Some(value: T)

  function Least(a: int, b: int): int {
    if a < b then a else b
  }

  function Greatest(a: int, b: int): int {
    if a > b then a else b
  }

  /** A published value, or a group configuration with the length of its encoding. */
  datatype Value =
    | Application(bytes: seq<bv8>)
    | Configuration(servers: seq<Id>, encodedLength: nat)
  {
    function Length(): nat {
      match this
      case Application(bytes) => |bytes|
      case Configuration(_, length) => length
    }
  }

  /** An entry of the replicated log; entries the servers write themselves have no client. */
  datatype Entry = Entry(term: nat, value: Value, clientId: Option<Id>, messageId: nat)

  //
  // Messages between servers
  //

  datatype SessionMark = SessionMark(clientId: Id, lastCommitted: nat)

  /** What a voter tells its candidate about the client sessions it knows. */
  datatype TransientState = TransientState(sessions: seq<SessionMark>, commitIndex: nat)

  datatype VoteRequest = VoteRequest(
    serverId: Id,
    term: nat,
    lastLogTerm: nat,
    lastLogIndex: nat,
    preVote: bool)

  datatype VoteResponse = VoteResponse(
    serverId: Id,
    accepted: bool,
    term: nat,
    transientState: Option<TransientState>)

  datatype Transfer = Snapshot | LogTail

  datatype AppendRequest = AppendRequest(
    serverId: Id,
    term: nat,
    lastLogTerm: nat,
    lastLogIndex: nat,
    commitIndex: nat,
    entries: seq<Entry>,
    transfer: Option<Transfer>)

  datatype AppendResponse = AppendResponse(
    serverId: Id,
    accepted: bool,
    term: nat,
    nextIndex: nat,
    transferRequired: bool)

  datatype JoinRequest = JoinRequest(serverId: Id, lastLogTerm: nat, lastLogIndex: nat)

  datatype JoinResponse = JoinResponse(
    serverId: Id,
    accepted: bool,
    leaderId: Option<Id>,
    alreadyJoined: bool,
    catchingUp: bool,
    transfer: Option<Transfer>,
    rewindRepeat: bool)

  datatype LeaveResponse = LeaveResponse(
    serverId: Id,
    accepted: bool,
    leaderId: Option<Id>,
    configuration: Option<seq<Id>>)

  //
  // Messages between clients and servers
  //

  datatype Message = Message(id: nat, bytes: seq<bv8>)

  datatype PublishRequest = PublishRequest(clientId: Id, messages: seq<Message>)

  datatype PublishResponse = PublishResponse(
    serverId: Id,
    accepted: bool,
    leaderId: Option<Id>,
    configuration: Option<seq<Id>>,
    outOfOrder: bool,
    lastReceived: nat,
    lastCommitted: nat)
}
