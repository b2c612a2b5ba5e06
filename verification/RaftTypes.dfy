/** The values every other module speaks about: commands, log entries, roles and messages. */
module RaftTypes {

  datatype Option<+T> = None | Some(value: T)

  /** Node identifiers; the wire format gives them 32 bits, see `Codec`. */
  type NodeId = nat

  datatype Command =
    | Put(key: string, value: string)
    | Delete(key: string)
    | Cas(key: string, expected: string, value: string)
    | Get(key: string)
    | AddServer(id: NodeId)
    | RemoveServer(id: NodeId)

  datatype CmdResult = CmdResult(ok: bool, value: string, error: string)

  /** Indices are 1-based; index 0 is the empty sentinel. */
  datatype LogEntry = LogEntry(term: nat, index: nat, cmd: Command)

  datatype Role = Follower | Candidate | Leader

  newtype byte = x: int | 0 <= x < 256
  type bytes = seq<byte>

  datatype Message =
    | RequestVote(term: nat, candidate: NodeId, lastIndex: nat, lastTerm: nat)
    | RequestVoteReply(term: nat, granted: bool)
    | AppendEntries(term: nat, leader: NodeId, prevIndex: nat, prevTerm: nat,
                    entries: seq<LogEntry>, leaderCommit: nat)
    | AppendEntriesReply(term: nat, success: bool, conflictIndex: nat, conflictTerm: nat)
    | ClientRequest(clientId: nat, requestId: nat, cmd: Command)
    | ClientReply(clientId: nat, requestId: nat, success: bool, result: CmdResult, leaderHint: NodeId)
    | InstallSnapshot(term: nat, leader: NodeId, lastIndex: nat, lastTerm: nat, data: bytes)
    | InstallSnapshotReply(term: nat, lastIndex: nat)
    | ReadIndexRequest(term: nat, leader: NodeId, round: nat)
    | ReadIndexReply(term: nat, round: nat)

  /** A message on the network, stamped with its sender and its addressee. */
  datatype Packet = Packet(from: NodeId, to: NodeId, msg: Message)

  ghost predicate IsPrefix<T>(a: seq<T>, b: seq<T>) {
    |a| <= |b| && a == b[..|a|]
  }
}
