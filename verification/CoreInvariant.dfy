/** What guard G1 alone keeps true in every run: votes, elections, logs and confirmations
    agree with the history. Each predicate speaks of one node, packet, election, ballot or
    confirmation, so that a step has to be checked only where it acts. */
module CoreInvariant {
  import opened Options
  import opened Messages
  import opened NodeSpec
  import opened Cluster

  // Logs

  /** The entry at `k`, and all before it, are those of the leader of its term. */
  predicate EntryOk(h: History, log: Log, k: nat)
    requires k < |log|
  {
    var t := log[k].leaderTerm;
    t in h.elections && log[..k + 1] <= h.elections[t].log
  }

  ghost predicate LogOk(h: History, log: Log) {
    && log != [] && log[0] == SENTINEL
    && forall k | 1 <= k < |log| :: EntryOk(h, log, k)
  }

  ghost predicate TermsAtMost(log: Log, term: Term) {
    forall k | 0 <= k < |log| :: log[k].leaderTerm <= term
  }

  /** The leader's log of term `t` up to and including index `k`. */
  function Prefix(h: History, t: Term, k: nat): Log
    requires t in h.elections && k < |h.elections[t].log|
  {
    h.elections[t].log[..k + 1]
  }

  /** `log` still holds what the leader of `t` had up to `k`, unless some leader elected
      after `t`, and no later than `upTo`, started without it. */
  ghost predicate Holds(h: History, log: Log, t: Term, k: nat, upTo: int)
    requires t in h.elections && k < |h.elections[t].log|
  {
    Prefix(h, t, k) <= log || Superseded(h, t, k, upTo)
  }

  ghost predicate Superseded(h: History, t: Term, k: nat, upTo: int)
    requires t in h.elections && k < |h.elections[t].log|
  {
    exists u | u in h.elections :: t < u <= upTo && !(Prefix(h, t, k) <= h.elections[u].start)
  }

  // History

  ghost predicate ElectionOk(h: History, ids: set<NodeId>, t: Term)
    requires t in h.elections
  {
    var e := h.elections[t];
    && t >= 1
    && e.leader in ids
    && e.voters <= ids && IsMajority(|e.voters|, |ids|)
    && (forall v | v in e.voters :: VotedFor(h, v, t, e.leader))
    && VotedFor(h, e.leader, t, e.leader)
    && e.start == h.ballots[VoteKey(e.leader, t)].log
    && e.start <= e.log && LogOk(h, e.log)
    && (forall k | 0 <= k < |e.start| :: e.start[k].leaderTerm < t)
    && (forall k | |e.start| <= k < |e.log| :: e.log[k].leaderTerm == t)
  }

  predicate VotedFor(h: History, voter: NodeId, t: Term, candidate: NodeId) {
    VoteKey(voter, t) in h.ballots && h.ballots[VoteKey(voter, t)].candidate == candidate
  }

  ghost predicate BallotOk(h: History, key: VoteKey)
    requires key in h.ballots
  {
    var b := h.ballots[key];
    var own := VoteKey(b.candidate, key.term);
    && key.term >= 1 && LogOk(h, b.log)
    && VotedFor(h, b.candidate, key.term, b.candidate)
    && h.ballots[own].log != []
    && UpToDate(LastTerm(h.ballots[own].log), LastIndex(h.ballots[own].log), b.log)
  }

  predicate AckOk(h: History, a: Ack) {
    a.term in h.elections && a.index < |h.elections[a.term].log|
  }

  /** A vote that can decide a term was cast with all the voter had confirmed before. */
  ghost predicate BallotKeepsAck(h: History, key: VoteKey, a: Ack)
    requires key in h.ballots
  {
    AckOk(h, a) && key.voter == a.node && a.term < key.term && Decisive(h, key) ==>
      Holds(h, h.ballots[key].log, a.term, a.index, key.term - 1)
  }

  predicate Decisive(h: History, key: VoteKey) {
    key.term in h.elections ==> key.voter in h.elections[key.term].voters
  }

  ghost predicate HistOk(h: History, ids: set<NodeId>) {
    && (forall t | t in h.elections :: ElectionOk(h, ids, t))
    && (forall key | key in h.ballots :: BallotOk(h, key))
    && (forall a | a in h.acks :: AckOk(h, a))
    && (forall key, a | key in h.ballots && a in h.acks :: BallotKeepsAck(h, key, a))
  }

  // Nodes

  ghost predicate BallotsPast(h: History, id: NodeId, term: Term) {
    forall key | key in h.ballots && key.voter == id :: key.term <= term
  }

  ghost predicate AckKept(h: History, s: NodeState, a: Ack) {
    a.term <= s.term && AckOk(h, a) && Holds(h, s.log, a.term, a.index, s.term)
  }

  ghost predicate AcksKept(h: History, id: NodeId, s: NodeState) {
    forall a | a in h.acks && a.node == id :: AckKept(h, s, a)
  }

  ghost predicate RoleOk(h: History, ids: set<NodeId>, id: NodeId, s: NodeState) {
    var key := VoteKey(id, s.term);
    match s.role
    case Follower =>
      key in h.ballots ==> s.votedFor == Some(h.ballots[key].candidate)
    case Candidate(votes) =>
      && VotedFor(h, id, s.term, id) && s.votedFor == Some(id)
      && votes <= ids && (forall v | v in votes :: VotedFor(h, v, s.term, id))
      && (s.term !in h.elections ==> s.log == h.ballots[key].log)
    case Leader(next, matched) =>
      && VotedFor(h, id, s.term, id) && s.votedFor in {None, Some(id)}
      && s.term in h.elections && h.elections[s.term].leader == id
      && h.elections[s.term].log == s.log
      && next.Keys == ids && matched.Keys == ids
  }

  predicate LeadsIfElected(h: History, id: NodeId, s: NodeState) {
    s.term in h.elections && h.elections[s.term].leader == id ==> s.role.Leader?
  }

  ghost predicate NodeOk(h: History, ids: set<NodeId>, id: NodeId, s: NodeState) {
    && LogOk(h, s.log) && TermsAtMost(s.log, s.term)
    && BallotsPast(h, id, s.term)
    && RoleOk(h, ids, id, s)
    && LeadsIfElected(h, id, s)
    && AcksKept(h, id, s)
  }

  // Packets

  /** The request is a slice of the leader's log that reached the log's end. */
  predicate AppendReqOk(h: History, from: NodeId, req: AppendEntriesRequest) {
    && req.leaderTerm in h.elections && req.leaderId == from
    && var log := h.elections[req.leaderTerm].log;
    && h.elections[req.leaderTerm].leader == from
    && req.prevLogIndex + |req.entries| < |log|
    && req.prevLogTerm == log[req.prevLogIndex].leaderTerm
    && log[..req.prevLogIndex + 1] + req.entries <= log
  }

  predicate VoteReqOk(h: History, from: NodeId, req: RequestVoteRequest) {
    && req.candidateId == from
    && VotedFor(h, from, req.candidateTerm, from)
    && var log := h.ballots[VoteKey(from, req.candidateTerm)].log;
    log != [] && req.lastLogIndex == LastIndex(log) && req.lastLogTerm == LastTerm(log)
  }

  predicate PacketOk(h: History, ids: set<NodeId>, p: Packet) {
    && p.from in ids && p.to in ids
    && match p.body
       case AppendReq(req) => AppendReqOk(h, p.from, req)
       case VoteReq(req) => VoteReqOk(h, p.from, req)
       case AppendResp(resp) =>
         resp.matchedUntil.Some? ==> Ack(p.from, resp.currentTerm, resp.matchedUntil.value) in h.acks
       case VoteResp(resp) =>
         resp.voteGranted ==> VotedFor(h, p.from, resp.candidateTerm, p.to)
  }

  ghost predicate Core(c: State) {
    && HistOk(c.hist, Ids(c))
    && (forall id | id in c.nodes :: NodeOk(c.hist, Ids(c), id, c.nodes[id]))
    && (forall p | p in c.net :: PacketOk(c.hist, Ids(c), p))
  }

  // How the history may change in one step of node `id`

  predicate ElectionGrows(e: Election, e': Election) {
    e'.leader == e.leader && e'.voters == e.voters && e'.start == e.start && e.log <= e'.log
  }

  ghost predicate Grows(h: History, h': History) {
    && (forall t | t in h.elections :: t in h'.elections && ElectionGrows(h.elections[t], h'.elections[t]))
    && (forall key | key in h.ballots :: key in h'.ballots && h'.ballots[key] == h.ballots[key])
    && h.acks <= h'.acks
    && h.commits <= h'.commits
  }

  /** Whatever is new in the history concerns `id`. */
  ghost predicate OnlyBy(h: History, h': History, id: NodeId) {
    && (forall key | key in h'.ballots && key.voter != id :: key in h.ballots)
    && (forall a | a in h'.acks && a.node != id :: a in h.acks)
    && (forall t | t in h'.elections && h'.elections[t].leader != id ::
          t in h.elections && h.elections[t].log == h'.elections[t].log)
  }

  /** A step from `c` to `c'` keeps the invariant and only adds to the history. */
  ghost predicate CoreKept(c: State, c': State) {
    Core(c') && Ids(c') == Ids(c) && Grows(c.hist, c'.hist)
  }
}
