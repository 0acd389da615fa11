/** The values that travel between the replicas and into storage: log entries,
    the request and reply messages of raft.proto, roles and identifiers. */
module Types {

  datatype Option<+T> = None | Some(value: T)

  /** A replica is named by its "host:port" string; names are only compared. */
  type NodeId = string

  type KvTable = map<string, string>

  datatype Role = Follower | Candidate | Leader

  datatype LogEntry = LogEntry(term: nat, key: string, value: string)

  type Log = seq<LogEntry>

  /** `leaderId` is never read by the receiver; the sender fills it with the
      follower's identifier. */
  datatype AppendRequest = AppendRequest(
    term: nat,
    leaderId: NodeId,
    prevLogIndex: nat,
    prevLogTerm: nat,
    entries: seq<LogEntry>,
    leaderCommit: nat)

  datatype VoteRequest = VoteRequest(
    term: nat,
    candidateId: NodeId,
    lastLogIndex: nat,
    lastLogTerm: nat)

  datatype VoteReply = VoteReply(term: nat, voteGranted: bool)
}
