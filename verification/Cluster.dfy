/** A cluster of nodes and a network that keeps every packet ever sent: any packet may be
    delivered at any time, any number of times, or never. Every handler and every phase of
    a tick is one action. */
module Cluster {
  import opened Messages
  import opened NodeSpec

  // History: auxiliary records of what happened. No node reads them.

  /** How a leader came to lead a term: who voted, the log it had then, and its log since. */
  datatype Election = Election(leader: NodeId, voters: set<NodeId>, start: Log, log: Log)

  datatype VoteKey = VoteKey(voter: NodeId, term: Term)

  /** The first vote a node casts in a term, and the log the voter had at that moment. */
  datatype Ballot = Ballot(candidate: NodeId, log: Log)

  /** `node` confirmed in `term` that its log matches the leader's up to `index`. */
  datatype Ack = Ack(node: NodeId, term: Term, index: nat)

  /** The leader of `term` advanced its commit index to `index`, counting `quorum`. */
  datatype CommitRecord = CommitRecord(term: Term, index: nat, quorum: set<NodeId>)

  datatype History = History(
    elections: map<Term, Election>,
    ballots: map<VoteKey, Ballot>,
    acks: set<Ack>,
    commits: set<CommitRecord>)

  datatype State = State(nodes: map<NodeId, NodeState>, net: set<Packet>, hist: History)

  datatype Action =
    | Deliver(packet: Packet)
    | Timeout(id: NodeId)
    | Replicate(id: NodeId)
    | Commit(id: NodeId)
    | Append(id: NodeId, commands: seq<Command>)

  function Init(ids: set<NodeId>): State {
    State(map id | id in ids :: INITIAL, {}, History(map[], map[], {}, {}))
  }

  function Ids(c: State): set<NodeId> { c.nodes.Keys }

  function Actor(a: Action): NodeId {
    if a.Deliver? then a.packet.to else a.id
  }

  /** No log is ever empty: position 0 holds the sentinel. */
  predicate LogsNonempty(c: State) {
    forall id | id in c.nodes :: c.nodes[id].log != []
  }

  /** When an action can happen. The leader's tick phases run only on a leader, and
      replication has a meaning only while every next index points into the log. */
  predicate Enabled(c: State, a: Action) {
    && LogsNonempty(c)
    && Actor(a) in c.nodes
    && var s := c.nodes[Actor(a)];
    match a
    case Deliver(p) => p in c.net
    case Timeout(_) => true
    case Replicate(_) => s.role.Leader? && forall id | id in c.nodes :: SendDefined(s, id)
    case Commit(_) => s.role.Leader?
    case Append(_, _) => s.role.Leader?
  }

  /** Node `id` moves to state `s`, sends `out`, and the history becomes `h`. */
  function Update(c: State, id: NodeId, s: NodeState, out: set<Packet>, h: History): State {
    State(c.nodes[id := s], c.net + out, h)
  }

  function Next(c: State, a: Action): State
    requires Enabled(c, a)
  {
    match a
    case Deliver(p) => DeliverTo(c, p)
    case Timeout(id) => DoTimeout(c, id)
    case Replicate(id) => Update(c, id, c.nodes[id], AppendRequests(c.nodes[id], id, Ids(c)), c.hist)
    case Commit(id) => DoCommit(c, id)
    case Append(id, commands) => DoAppend(c, id, commands)
  }

  function DeliverTo(c: State, p: Packet): State
    requires LogsNonempty(c) && p.to in c.nodes
  {
    match p.body
    case AppendReq(req) => DoAppendReq(c, p.from, p.to, req)
    case VoteReq(req) => DoVoteReq(c, p.from, p.to, req)
    case AppendResp(resp) =>
      Update(c, p.to, HandleAppendResp(c.nodes[p.to], resp, p.from), {}, c.hist)
    case VoteResp(resp) => DoVoteResp(c, p.from, p.to, resp)
  }

  function DoAppendReq(c: State, from: NodeId, to: NodeId, req: AppendEntriesRequest): State
    requires to in c.nodes
  {
    var (s, resp) := HandleAppendReq(c.nodes[to], req);
    Update(c, to, s, {Packet(to, from, AppendResp(resp))}, RecordAcks(c.hist, to, resp))
  }

  /** Confirming an index confirms every smaller one. */
  function AcksUpTo(node: NodeId, term: Term, index: nat): set<Ack> {
    set i | 0 <= i <= index :: Ack(node, term, i)
  }

  function RecordAcks(h: History, node: NodeId, resp: AppendEntriesResponse): History {
    match resp.matchedUntil
    case None => h
    case Some(k) => h.(acks := h.acks + AcksUpTo(node, resp.currentTerm, k))
  }

  function DoVoteReq(c: State, from: NodeId, to: NodeId, req: RequestVoteRequest): State
    requires to in c.nodes && c.nodes[to].log != []
  {
    var (s, resp) := HandleVoteReq(c.nodes[to], req);
    var h := if resp.voteGranted then RecordBallot(c.hist, to, s.term, Ballot(req.candidateId, s.log)) else c.hist;
    Update(c, to, s, {Packet(to, from, VoteResp(resp))}, h)
  }

  function RecordBallot(h: History, voter: NodeId, term: Term, ballot: Ballot): History {
    var key := VoteKey(voter, term);
    if key in h.ballots then h else h.(ballots := h.ballots[key := ballot])
  }

  function DoVoteResp(c: State, from: NodeId, to: NodeId, resp: RequestVoteResponse): State
    requires to in c.nodes && c.nodes[to].log != []
  {
    var s := SeeTerm(c.nodes[to], resp.currentTerm);
    var s' := HandleVoteResp(c.nodes[to], resp, from, Ids(c));
    if Wins(s, resp, from, |Ids(c)|) then
      var e := Election(to, s.role.votes + {from}, s'.log, s'.log);
      Update(c, to, s', AppendRequests(s', to, Ids(c)), c.hist.(elections := c.hist.elections[s'.term := e]))
    else
      Update(c, to, s', {}, c.hist)
  }

  function DoTimeout(c: State, id: NodeId): State
    requires id in c.nodes && c.nodes[id].log != []
  {
    var s := BecomeCandidate(c.nodes[id], id);
    Update(c, id, s, VoteRequests(s, id, Ids(c)), RecordBallot(c.hist, id, s.term, Ballot(id, s.log)))
  }

  function DoCommit(c: State, id: NodeId): State
    requires id in c.nodes && c.nodes[id].log != [] && c.nodes[id].role.Leader?
  {
    var s := c.nodes[id];
    var s' := CommitIfPossible(s, |Ids(c)|);
    var h := if s'.commit == s.commit then c.hist
             else c.hist.(commits := c.hist.commits
                                     + {CommitRecord(s.term, s'.commit, Holders(s.role.matchIndex, s'.commit))});
    Update(c, id, s', {}, h)
  }

  function DoAppend(c: State, id: NodeId, commands: seq<Command>): State
    requires id in c.nodes
  {
    var s := AppendCommands(c.nodes[id], commands);
    var h := if s.term in c.hist.elections
             then c.hist.(elections := c.hist.elections[s.term := c.hist.elections[s.term].(log := s.log)])
             else c.hist;
    Update(c, id, s, {}, h)
  }

  // Guards: conditions on one action that the source does not check

  /** G1: a sitting leader does not grant its own term to another candidate. */
  predicate G1(c: State, a: Action)
    requires Enabled(c, a)
  {
    a.Deliver? && a.packet.body.VoteReq? ==>
      var s := c.nodes[a.packet.to];
      var req := a.packet.body.voteReq;
      !(s.role.Leader? && req.candidateTerm == s.term && req.candidateId != a.packet.to && Grants(s, req))
  }

  /** G2: a confirmation that raises a match index is of the leader's current term. */
  predicate G2(c: State, a: Action)
    requires Enabled(c, a)
  {
    a.Deliver? && a.packet.body.AppendResp? ==>
      var s := c.nodes[a.packet.to];
      var resp := a.packet.body.appendResp;
      (s.role.Leader? && resp.matchedUntil.Some? && resp.currentTerm < s.term ==>
         resp.matchedUntil.value <= Lookup(s.role.matchIndex, a.packet.from))
  }

  /** G3: a leader handles a rejection only while the next index is above 1. */
  predicate G3(c: State, a: Action)
    requires Enabled(c, a)
  {
    a.Deliver? && a.packet.body.AppendResp? ==>
      var s := c.nodes[a.packet.to];
      var resp := a.packet.body.appendResp;
      (s.role.Leader? && resp.matchedUntil.None? && resp.currentTerm <= s.term ==>
         Lookup(s.role.nextIndex, a.packet.from) > 1)
  }

  /** G4: the index a leader advances its commit index to holds an entry of its own term or of
      the term right before. */
  predicate G4(c: State, a: Action)
    requires Enabled(c, a)
  {
    CommitAllowed(c, a, {})
  }

  /** As G4, but a leader of term `T` may also commit an entry of term `u` if `(u, T)` is spared. */
  predicate CommitAllowed(c: State, a: Action, spared: set<(Term, Term)>)
    requires Enabled(c, a)
  {
    a.Commit? ==>
      var s := c.nodes[a.id];
      var k := CommitIfPossible(s, |Ids(c)|).commit;
      (k != s.commit ==> RecentOr(spared, s.log[k].leaderTerm, s.term))
  }

  predicate RecentOr(spared: set<(Term, Term)>, entry: Term, term: Term) {
    term <= entry + 1 || (entry, term) in spared
  }

  /** What the run demands of commitments; RECENT is G4. */
  datatype CommitGuard = AnyTerm | RecentTerm(spared: set<(Term, Term)>)

  const RECENT: CommitGuard := RecentTerm({})

  /** A run with guards `g` lets a leader of `term` commit an entry of term `entry`. */
  predicate Allows(g: Guards, entry: Term, term: Term) {
    g.commits.RecentTerm? ==> RecentOr(g.commits.spared, entry, term)
  }

  datatype Guards = Guards(oneVote: bool, freshReply: bool, nextFloor: bool, commits: CommitGuard)

  /** The guards selected by `g` hold for this action. */
  predicate Obeys(g: Guards, c: State, a: Action)
    requires Enabled(c, a)
  {
    && (g.oneVote ==> G1(c, a))
    && (g.freshReply ==> G2(c, a))
    && (g.nextFloor ==> G3(c, a))
    && (g.commits.RecentTerm? ==> CommitAllowed(c, a, g.commits.spared))
  }

  /** The states visited, one action apart. */
  datatype Trace = Trace(ids: set<NodeId>, states: seq<State>, actions: seq<Action>)

  predicate StepOk(g: Guards, c: State, a: Action, c': State) {
    Enabled(c, a) && Obeys(g, c, a) && c' == Next(c, a)
  }

  /** A run of the nodes `t.ids` from their initial state, in which each action obeys `g`. */
  ghost predicate Run(g: Guards, t: Trace) {
    && |t.states| == |t.actions| + 1
    && t.states[0] == Init(t.ids)
    && forall i | 0 <= i < |t.actions| :: StepOk(g, t.states[i], t.actions[i], t.states[i + 1])
  }

  lemma RunBegins(g: Guards, t: Trace)
    requires Run(g, t)
    ensures |t.states| == |t.actions| + 1 && t.states[0] == Init(t.ids)
  {
  }

  lemma StepAt(g: Guards, t: Trace, i: nat)
    requires Run(g, t) && i + 1 < |t.states|
    ensures i < |t.actions| && StepOk(g, t.states[i], t.actions[i], t.states[i + 1])
  {
  }

  /** Node `id` leads `term` in `c`. */
  predicate Leads(c: State, id: NodeId, term: Term) {
    id in c.nodes && c.nodes[id].role.Leader? && c.nodes[id].term == term
  }
}
