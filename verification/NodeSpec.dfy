/** What each handler and each tick phase of one consensus node does, as a function from
    the node's state to its new state and the packets it sends (hw2/src/consensus/node.cpp).
    The functions keep the source's branches and add no checks. */
module NodeSpec {
  import opened Options
  import opened Messages

  /** `candidate_state_` exists exactly while the role is candidate, and `leader_state_`
      exactly while it is leader, so each is carried by its role. */
  datatype Role =
    | Follower
    | Candidate(votes: set<NodeId>)
    | Leader(nextIndex: map<NodeId, nat>, matchIndex: map<NodeId, nat>)

  datatype NodeState = NodeState(term: Term, votedFor: Option<NodeId>, log: Log, commit: nat, role: Role)

  const INITIAL := NodeState(0, None, [SENTINEL], 0, Follower)

  /** What `operator[]` of std::map reads: a missing key counts as 0. */
  function Lookup(m: map<NodeId, nat>, id: NodeId): nat {
    if id in m then m[id] else 0
  }

  /** `--x` on a 64-bit unsigned value wraps around below 0. */
  const UINT64_MAX: nat := 0xFFFF_FFFF_FFFF_FFFF

  function Decrement(x: nat): nat {
    if x == 0 then UINT64_MAX else x - 1
  }

  function LastIndex(log: Log): nat
    requires log != []
  {
    |log| - 1
  }

  function LastTerm(log: Log): Term
    requires log != []
  {
    log[|log| - 1].leaderTerm
  }

  /** Adopting a larger term always means becoming a follower without a vote. */
  function SeeTerm(s: NodeState, term: Term): NodeState {
    if s.term < term then s.(term := term, votedFor := None, role := Follower) else s
  }

  // AppendEntries requests

  /** The log after an accepted request: unchanged if it already holds the entries. */
  function Merged(log: Log, prev: nat, entries: Log): Log
    requires prev < |log|
  {
    var wanted := log[..prev + 1] + entries;
    if wanted <= log then log else wanted
  }

  predicate Accepts(s: NodeState, req: AppendEntriesRequest) {
    && s.term <= req.leaderTerm
    && req.prevLogIndex < |s.log|
    && s.log[req.prevLogIndex].leaderTerm == req.prevLogTerm
  }

  function HandleAppendReq(s: NodeState, req: AppendEntriesRequest): (NodeState, AppendEntriesResponse) {
    var s1 := SeeTerm(s, req.leaderTerm);
    if !Accepts(s1, req) then
      (s1, AppendEntriesResponse(s1.term, None))
    else
      var log := Merged(s1.log, req.prevLogIndex, req.entries);
      var last := req.prevLogIndex + |req.entries|;
      var commit := if req.leaderCommit > s1.commit then Min(req.leaderCommit, last) else s1.commit;
      (s1.(log := log, commit := commit), AppendEntriesResponse(s1.term, Some(Min(|log| - 1, last))))
  }

  // RequestVote requests

  /** The candidate's log, known by its last index and term, is at least as up-to-date. */
  predicate UpToDate(lastTerm: Term, lastIndex: nat, log: Log)
    requires log != []
  {
    || LastTerm(log) < lastTerm
    || (LastTerm(log) == lastTerm && LastIndex(log) <= lastIndex)
  }

  predicate Grants(s: NodeState, req: RequestVoteRequest)
    requires s.log != []
  {
    && s.term <= req.candidateTerm
    && s.votedFor.GetOr(req.candidateId) == req.candidateId
    && UpToDate(req.lastLogTerm, req.lastLogIndex, s.log)
  }

  function HandleVoteReq(s: NodeState, req: RequestVoteRequest): (NodeState, RequestVoteResponse)
    requires s.log != []
  {
    var s1 := SeeTerm(s, req.candidateTerm);
    if req.candidateTerm < s1.term then
      (s1, RequestVoteResponse(0, false, 0))
    else if Grants(s1, req) then
      (s1.(votedFor := Some(req.candidateId)), RequestVoteResponse(s1.term, true, req.candidateTerm))
    else
      (s1, RequestVoteResponse(s1.term, false, 0))
  }

  // Replies

  function HandleAppendResp(s: NodeState, resp: AppendEntriesResponse, from: NodeId): NodeState {
    var s1 := SeeTerm(s, resp.currentTerm);
    match s1.role
    case Leader(next, matched) =>
      (match resp.matchedUntil
       case None => s1.(role := Leader(next[from := Decrement(Lookup(next, from))], matched))
       case Some(k) =>
         var m := Max(Lookup(matched, from), k);
         s1.(role := Leader(next[from := Max(Lookup(next, from), m + 1)], matched[from := m])))
    case _ => s1
  }

  predicate IsMajority(size: nat, total: nat) {
    size * 2 >= total + 1
  }

  /** The vote set after counting this reply, if it counts. */
  predicate Counts(s: NodeState, resp: RequestVoteResponse) {
    s.role.Candidate? && resp.voteGranted && resp.candidateTerm == s.term
  }

  predicate Wins(s: NodeState, resp: RequestVoteResponse, from: NodeId, total: nat) {
    Counts(s, resp) && IsMajority(|s.role.votes + {from}|, total)
  }

  function HandleVoteResp(s: NodeState, resp: RequestVoteResponse, from: NodeId, ids: set<NodeId>): NodeState
    requires s.log != []
  {
    var s1 := SeeTerm(s, resp.currentTerm);
    if !Counts(s1, resp) then s1
    else if Wins(s1, resp, from, |ids|) then BecomeLeader(s1, ids)
    else s1.(role := Candidate(s1.role.votes + {from}))
  }

  function BecomeLeader(s: NodeState, ids: set<NodeId>): NodeState
    requires s.log != []
  {
    s.(votedFor := None,
       role := Leader(map id | id in ids :: |s.log|, map id | id in ids :: 0))
  }

  function BecomeCandidate(s: NodeState, me: NodeId): NodeState {
    s.(term := s.term + 1, votedFor := Some(me), role := Candidate({}))
  }

  function VoteRequestOf(s: NodeState, me: NodeId): RequestVoteRequest
    requires s.log != []
  {
    RequestVoteRequest(s.term, me, LastIndex(s.log), LastTerm(s.log))
  }

  function VoteRequests(s: NodeState, me: NodeId, ids: set<NodeId>): set<Packet>
    requires s.log != []
  {
    set id | id in ids :: Packet(me, id, VoteReq(VoteRequestOf(s, me)))
  }

  // Replication

  /** `log[next_index - 1]` is inside the log. Outside it the source has undefined behaviour. */
  predicate SendDefined(s: NodeState, id: NodeId) {
    s.role.Leader? && 1 <= Lookup(s.role.nextIndex, id) <= |s.log|
  }

  function AppendRequestFor(s: NodeState, me: NodeId, id: NodeId): AppendEntriesRequest
    requires SendDefined(s, id)
  {
    var next := Lookup(s.role.nextIndex, id);
    AppendEntriesRequest(s.term, me, next - 1, s.log[next - 1].leaderTerm, s.log[next..], s.commit)
  }

  function AppendRequests(s: NodeState, me: NodeId, ids: set<NodeId>): set<Packet>
    requires forall id | id in ids :: SendDefined(s, id)
  {
    set id | id in ids :: Packet(me, id, AppendReq(AppendRequestFor(s, me, id)))
  }

  // Commitment

  function Holders(matched: map<NodeId, nat>, index: nat): set<NodeId> {
    set id | id in matched && matched[id] >= index
  }

  /** The greatest index in (lo..hi] held by a majority, or lo if there is none. */
  function HighestHeld(matched: map<NodeId, nat>, total: nat, lo: nat, hi: nat): (r: nat)
    ensures lo <= r
    ensures r == lo || (r <= hi && IsMajority(|Holders(matched, r)|, total))
    ensures forall i | r < i <= hi :: !IsMajority(|Holders(matched, i)|, total)
    decreases hi
  {
    if hi <= lo then lo
    else if IsMajority(|Holders(matched, hi)|, total) then hi
    else HighestHeld(matched, total, lo, hi - 1)
  }

  function CommitIfPossible(s: NodeState, total: nat): NodeState
    requires s.log != [] && s.role.Leader?
  {
    s.(commit := HighestHeld(s.role.matchIndex, total, s.commit, LastIndex(s.log)))
  }

  function NewItems(commands: seq<Command>, term: Term): (r: Log)
    ensures |r| == |commands| && forall k | 0 <= k < |r| :: r[k] == LogItem(commands[k], term)
  {
    seq(|commands|, k requires 0 <= k < |commands| => LogItem(commands[k], term))
  }

  function AppendCommands(s: NodeState, commands: seq<Command>): NodeState {
    s.(log := s.log + NewItems(commands, s.term))
  }
}
