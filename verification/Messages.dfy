/** Log entries and the four message records exchanged by consensus nodes
    (hw2/src/consensus/state.h and hw2/src/consensus/message.h). */
module Messages {
  import opened Options

  type NodeId = nat
  type Term = nat
  type Command = string

  datatype LogItem = LogItem(command: Command, leaderTerm: Term)

  type Log = seq<LogItem>

  /** Every log starts with this entry, so that index 0 always matches. */
  const SENTINEL := LogItem("", 0)

  datatype AppendEntriesRequest = AppendEntriesRequest(
    leaderTerm: Term, leaderId: NodeId, prevLogIndex: nat, prevLogTerm: Term,
    entries: Log, leaderCommit: nat)

  /** `success` is not a separate field: the source sets it exactly when it sets
      `matched_until`. */
  datatype AppendEntriesResponse = AppendEntriesResponse(currentTerm: Term, matchedUntil: Option<nat>)

  datatype RequestVoteRequest = RequestVoteRequest(
    candidateTerm: Term, candidateId: NodeId, lastLogIndex: nat, lastLogTerm: Term)

  datatype RequestVoteResponse = RequestVoteResponse(currentTerm: Term, voteGranted: bool, candidateTerm: Term)

  datatype Message =
    | AppendReq(appendReq: AppendEntriesRequest)
    | AppendResp(appendResp: AppendEntriesResponse)
    | VoteReq(voteReq: RequestVoteRequest)
    | VoteResp(voteResp: RequestVoteResponse)

  datatype Packet = Packet(from: NodeId, to: NodeId, body: Message)

  function Min(a: nat, b: nat): nat { if a < b then a else b }

  function Max(a: nat, b: nat): nat { if a < b then b else a }
}
