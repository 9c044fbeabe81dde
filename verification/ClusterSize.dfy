/** How the number of nodes decides whether guard G1 is needed. Only the node that leads a term can
    vote twice in it, because winning clears its vote. Two majorities of an even number of nodes
    share at least two, so there one leader's second vote is not enough; two majorities of an odd
    number may share only that leader, and then it is. */
module ClusterSize {
  import opened Options
  import opened Messages
  import opened NodeSpec
  import opened Cluster
  import opened CoreInvariant
  import opened NodeActions
  import opened Quorum
  import opened RunSteps
  import opened Elections
  import opened Necessity
  import opened Safety

  predicate EvenSize(ids: set<NodeId>) { |ids| % 2 == 0 }

  /** No two nodes ever lead the same term, at the same or at different moments of a run. */
  ghost predicate ElectsOne(g: Guards, ids: set<NodeId>) {
    forall t: Trace, i: nat, j: nat, a: NodeId, b: NodeId, term: Term
      | Run(g, t) && t.ids == ids && i <= j < |t.states| && Leads(t.states[i], a, term) && Leads(t.states[j], b, term)
      :: a == b
  }

  // What votes keep without any guard

  predicate Won(h: History, t: Term, id: NodeId) {
    t in h.elections && h.elections[t].leader == id
  }

  /** Node `v` may have voted for `d` in term `t`: it did so first, or it has led the term. */
  predicate Cast(h: History, v: NodeId, t: Term, d: NodeId) {
    VotedFor(h, v, t, d) || Won(h, t, v)
  }

  ghost predicate VotesOk(h: History, ids: set<NodeId>, id: NodeId, s: NodeState) {
    match s.role
    case Follower => true
    case Candidate(votes) => votes <= ids && !Won(h, s.term, id) && forall v | v in votes :: Cast(h, v, s.term, id)
    case Leader(_, _) => Won(h, s.term, id)
  }

  ghost predicate NodeVotes(h: History, ids: set<NodeId>, id: NodeId, s: NodeState) {
    && BallotsPast(h, id, s.term)
    && (forall t: Term | Won(h, t, id) :: t <= s.term)
    && (match s.votedFor
        case Some(d) => Cast(h, id, s.term, d)
        case None => VoteKey(id, s.term) in h.ballots ==> Won(h, s.term, id))
    && VotesOk(h, ids, id, s)
  }

  predicate PacketVotes(h: History, ids: set<NodeId>, p: Packet) {
    && p.from in ids
    && (p.body.VoteReq? ==> p.body.voteReq.candidateId == p.from)
    && (p.body.VoteResp? && p.body.voteResp.voteGranted ==> Cast(h, p.from, p.body.voteResp.candidateTerm, p.to))
  }

  ghost predicate WonFairly(h: History, ids: set<NodeId>, t: Term)
    requires t in h.elections
  {
    var e := h.elections[t];
    e.voters <= ids && IsMajority(|e.voters|, |ids|) && forall v | v in e.voters :: VotedFor(h, v, t, e.leader)
  }

  ghost predicate Votes(c: State) {
    && (forall t | t in c.hist.elections :: WonFairly(c.hist, Ids(c), t))
    && (forall id | id in c.nodes :: NodeVotes(c.hist, Ids(c), id, c.nodes[id]))
    && (forall p | p in c.net :: PacketVotes(c.hist, Ids(c), p))
  }

  // How votes and elections may change in a step of node `id`

  ghost predicate Keeps(h: History, h': History) {
    && (forall key | key in h.ballots :: key in h'.ballots && h'.ballots[key] == h.ballots[key])
    && (forall t | t in h.elections ::
          && t in h'.elections
          && h'.elections[t].leader == h.elections[t].leader && h'.elections[t].voters == h.elections[t].voters)
  }

  ghost predicate NewBy(h: History, h': History, id: NodeId) {
    && (forall key | key in h'.ballots && key.voter != id :: key in h.ballots)
    && (forall t | t in h'.elections && t !in h.elections :: h'.elections[t].leader == id)
  }

  ghost predicate VotesKept(c: State, c': State) {
    Votes(c') && Ids(c') == Ids(c) && Keeps(c.hist, c'.hist)
  }

  lemma NodeVotesKept(h: History, h': History, ids: set<NodeId>, actor: NodeId, id: NodeId, s: NodeState)
    requires Keeps(h, h') && NewBy(h, h', actor) && id != actor && NodeVotes(h, ids, id, s)
    ensures NodeVotes(h', ids, id, s)
  {
    assert forall t: Term :: Won(h', t, id) <==> Won(h, t, id);
  }

  lemma WonFairlyKept(h: History, h': History, ids: set<NodeId>, t: Term)
    requires Keeps(h, h') && t in h.elections && WonFairly(h, ids, t)
    ensures WonFairly(h', ids, t)
  {
  }

  lemma VotesAfter(c: State, id: NodeId, s: NodeState, out: set<Packet>, h': History)
    requires Votes(c) && id in c.nodes && Keeps(c.hist, h') && NewBy(c.hist, h', id)
    requires forall t | t in h'.elections && t !in c.hist.elections :: WonFairly(h', Ids(c), t)
    requires NodeVotes(h', Ids(c), id, s) && forall p | p in out :: PacketVotes(h', Ids(c), p)
    ensures VotesKept(c, Update(c, id, s, out, h'))
  {
    var c' := Update(c, id, s, out, h');
    assert Ids(c') == Ids(c);
    hide NodeVotes, WonFairly, PacketVotes, Keeps, NewBy;
    forall t | t in h'.elections ensures WonFairly(h', Ids(c'), t) {
      if t in c.hist.elections {
        WonFairlyKept(c.hist, h', Ids(c), t);
      }
    }
    forall j | j in c'.nodes ensures NodeVotes(h', Ids(c'), j, c'.nodes[j]) {
      if j != id {
        NodeVotesKept(c.hist, h', Ids(c), id, j, c.nodes[j]);
      }
    }
    forall p | p in c'.net ensures PacketVotes(h', Ids(c'), p) {
      if p !in out {
        PacketVotesKept(c.hist, h', Ids(c), p);
      }
    }
  }

  lemma PacketVotesKept(h: History, h': History, ids: set<NodeId>, p: Packet)
    requires Keeps(h, h') && PacketVotes(h, ids, p)
    ensures PacketVotes(h', ids, p)
  {
  }

  lemma SeenVotes(h: History, ids: set<NodeId>, id: NodeId, s: NodeState, term: Term)
    requires NodeVotes(h, ids, id, s)
    ensures NodeVotes(h, ids, id, SeeTerm(s, term))
  {
  }

  // Votes

  /** The only vote a node casts against an earlier one is that of a leader. */
  lemma GrantVotes(h: History, ids: set<NodeId>, id: NodeId, s: NodeState, req: RequestVoteRequest)
    requires NodeVotes(h, ids, id, s) && s.log != [] && Grants(s, req) && req.candidateTerm == s.term
    ensures var h' := RecordBallot(h, id, s.term, Ballot(req.candidateId, s.log));
            && Keeps(h, h') && NewBy(h, h', id) && Cast(h', id, s.term, req.candidateId)
            && NodeVotes(h', ids, id, s.(votedFor := Some(req.candidateId)))
  {
    var h' := RecordBallot(h, id, s.term, Ballot(req.candidateId, s.log));
    assert forall t: Term, v: NodeId :: Won(h', t, v) <==> Won(h, t, v);
    assert Keeps(h, h');
  }

  lemma CandidateVotes(h: History, ids: set<NodeId>, id: NodeId, s: NodeState)
    requires NodeVotes(h, ids, id, s)
    ensures var h' := RecordBallot(h, id, s.term + 1, Ballot(id, s.log));
            Keeps(h, h') && NewBy(h, h', id) && NodeVotes(h', ids, id, BecomeCandidate(s, id))
  {
    var h' := RecordBallot(h, id, s.term + 1, Ballot(id, s.log));
    assert VoteKey(id, s.term + 1) !in h.ballots;
    assert forall t: Term, v: NodeId :: Won(h', t, v) <==> Won(h, t, v);
  }

  lemma TwoShared(a: set<NodeId>, b: set<NodeId>, ids: set<NodeId>, l: NodeId) returns (v: NodeId)
    requires a <= ids && b <= ids && EvenSize(ids)
    requires IsMajority(|a|, |ids|) && IsMajority(|b|, |ids|)
    ensures v in a && v in b && v != l
  {
    CardinalityOfSubset(a + b, ids);
    assert |a + b| + |a * b| == |a| + |b|;
    if a * b <= {l} {
      CardinalityOfSubset(a * b, {l});
    }
    v :| v in a * b && v != l;
  }

  /** With an even number of nodes, a majority for a second candidate would hold a voter of the
      first leader that has not led. */
  lemma NotYetWon(h: History, ids: set<NodeId>, t: Term, id: NodeId, votes: set<NodeId>)
    requires EvenSize(ids) && votes <= ids && IsMajority(|votes|, |ids|)
    requires !Won(h, t, id) && forall v | v in votes :: Cast(h, v, t, id)
    requires t in h.elections ==> WonFairly(h, ids, t)
    ensures t !in h.elections
  {
    if t in h.elections {
      var v := TwoShared(votes, h.elections[t].voters, ids, h.elections[t].leader);
      assert false;
    }
  }

  lemma WinnerVotes(h: History, ids: set<NodeId>, id: NodeId, s: NodeState, votes: set<NodeId>)
    requires NodeVotes(h, ids, id, s) && s.role.Candidate? && s.log != [] && s.term !in h.elections
    requires votes <= ids && IsMajority(|votes|, |ids|) && forall v | v in votes :: Cast(h, v, s.term, id)
    ensures var h' := h.(elections := h.elections[s.term := Election(id, votes, s.log, s.log)]);
            && Keeps(h, h') && NewBy(h, h', id) && WonFairly(h', ids, s.term)
            && NodeVotes(h', ids, id, BecomeLeader(s, ids))
  {
    var h' := h.(elections := h.elections[s.term := Election(id, votes, s.log, s.log)]);
    assert forall t: Term :: Won(h', t, id) ==> t == s.term || Won(h, t, id);
  }

  lemma VoteRespVotes(c: State, from: NodeId, id: NodeId, resp: RequestVoteResponse)
    requires Votes(c) && EvenSize(Ids(c)) && id in c.nodes && c.nodes[id].log != [] && from in Ids(c)
    requires resp.voteGranted ==> Cast(c.hist, from, resp.candidateTerm, id)
    ensures VotesKept(c, DoVoteResp(c, from, id, resp))
  {
    var s := SeeTerm(c.nodes[id], resp.currentTerm);
    SeenVotes(c.hist, Ids(c), id, c.nodes[id], resp.currentTerm);
    if Wins(s, resp, from, |Ids(c)|) {
      var votes := s.role.votes + {from};
      NotYetWon(c.hist, Ids(c), s.term, id, votes);
      WinnerVotes(c.hist, Ids(c), id, s, votes);
      var s' := BecomeLeader(s, Ids(c));
      hide Votes, NodeVotes, WonFairly, Keeps, NewBy;
      VotesAfter(c, id, s', AppendRequests(s', id, Ids(c)),
                 c.hist.(elections := c.hist.elections[s.term := Election(id, votes, s.log, s.log)]));
    } else {
      Unchanged(c, id, HandleVoteResp(c.nodes[id], resp, from, Ids(c)), {});
    }
  }

  lemma Unchanged(c: State, id: NodeId, s: NodeState, out: set<Packet>)
    requires Votes(c) && id in c.nodes && NodeVotes(c.hist, Ids(c), id, s)
    requires forall p | p in out :: PacketVotes(c.hist, Ids(c), p)
    ensures VotesKept(c, Update(c, id, s, out, c.hist))
  {
    VotesAfter(c, id, s, out, c.hist);
  }

  lemma VoteReqVotes(c: State, from: NodeId, id: NodeId, req: RequestVoteRequest)
    requires Votes(c) && id in c.nodes && c.nodes[id].log != [] && req.candidateId == from
    ensures VotesKept(c, DoVoteReq(c, from, id, req))
  {
    var s := SeeTerm(c.nodes[id], req.candidateTerm);
    SeenVotes(c.hist, Ids(c), id, c.nodes[id], req.candidateTerm);
    var (s', resp) := HandleVoteReq(c.nodes[id], req);
    var reply := Packet(id, from, VoteResp(resp));
    if resp.voteGranted {
      GrantVotes(c.hist, Ids(c), id, s, req);
      var h' := RecordBallot(c.hist, id, s.term, Ballot(from, s.log));
      assert h'.elections == c.hist.elections;
      hide Votes, NodeVotes, WonFairly, Keeps, NewBy;
      VotesAfter(c, id, s', {reply}, h');
    } else {
      Unchanged(c, id, s, {reply});
    }
  }

  lemma TimeoutVotes(c: State, id: NodeId)
    requires Votes(c) && id in c.nodes && c.nodes[id].log != []
    ensures VotesKept(c, DoTimeout(c, id))
  {
    var s := BecomeCandidate(c.nodes[id], id);
    CandidateVotes(c.hist, Ids(c), id, c.nodes[id]);
    var h' := RecordBallot(c.hist, id, s.term, Ballot(id, s.log));
    assert h'.elections == c.hist.elections;
    hide Votes, NodeVotes, WonFairly, Keeps, NewBy;
    VotesAfter(c, id, s, VoteRequests(s, id, Ids(c)), h');
  }

  // Every other action leaves the votes alone

  lemma AppendReqVotes(c: State, from: NodeId, id: NodeId, req: AppendEntriesRequest)
    requires Votes(c) && id in c.nodes
    ensures VotesKept(c, DoAppendReq(c, from, id, req))
  {
    SeenVotes(c.hist, Ids(c), id, c.nodes[id], req.leaderTerm);
    var (s, resp) := HandleAppendReq(c.nodes[id], req);
    var h' := RecordAcks(c.hist, id, resp);
    assert h'.elections == c.hist.elections && h'.ballots == c.hist.ballots;
    SameVotes(c.hist, h', Ids(c), id, SeeTerm(c.nodes[id], req.leaderTerm), s);
    hide Votes, NodeVotes, WonFairly, HandleAppendReq;
    VotesAfter(c, id, s, {Packet(id, from, AppendResp(resp))}, h');
  }

  lemma SameVotes(h: History, h': History, ids: set<NodeId>, id: NodeId, s: NodeState, s': NodeState)
    requires h'.elections.Keys == h.elections.Keys && h'.ballots == h.ballots
    requires forall t | t in h.elections :: h'.elections[t].leader == h.elections[t].leader
    requires NodeVotes(h, ids, id, s) && s'.term == s.term && s'.votedFor == s.votedFor
    requires s'.role == s.role || (s'.role.Leader? && s.role.Leader?)
    ensures NodeVotes(h', ids, id, s')
  {
    assert forall t: Term, v: NodeId :: Won(h', t, v) <==> Won(h, t, v);
  }

  lemma AppendRespVotes(c: State, from: NodeId, id: NodeId, resp: AppendEntriesResponse)
    requires Votes(c) && id in c.nodes
    ensures var s := HandleAppendResp(c.nodes[id], resp, from);
            VotesKept(c, Update(c, id, s, {}, c.hist))
  {
    var s := HandleAppendResp(c.nodes[id], resp, from);
    SeenVotes(c.hist, Ids(c), id, c.nodes[id], resp.currentTerm);
    SameVotes(c.hist, c.hist, Ids(c), id, SeeTerm(c.nodes[id], resp.currentTerm), s);
    Unchanged(c, id, s, {});
  }

  lemma ReplicateVotes(c: State, id: NodeId)
    requires Votes(c) && Enabled(c, Replicate(id))
    ensures VotesKept(c, Next(c, Replicate(id)))
  {
    Unchanged(c, id, c.nodes[id], AppendRequests(c.nodes[id], id, Ids(c)));
  }

  lemma CommitVotes(c: State, id: NodeId)
    requires Votes(c) && id in c.nodes && c.nodes[id].log != [] && c.nodes[id].role.Leader?
    ensures VotesKept(c, DoCommit(c, id))
  {
    var c' := DoCommit(c, id);
    hide HighestHeld;
    SameVotes(c.hist, c'.hist, Ids(c), id, c.nodes[id], c'.nodes[id]);
    assert c' == Update(c, id, c'.nodes[id], {}, c'.hist);
    hide Votes, NodeVotes, WonFairly, DoCommit;
    VotesAfter(c, id, c'.nodes[id], {}, c'.hist);
  }

  lemma AppendVotes(c: State, id: NodeId, commands: seq<Command>)
    requires Votes(c) && id in c.nodes
    ensures VotesKept(c, DoAppend(c, id, commands))
  {
    var c' := DoAppend(c, id, commands);
    hide AppendCommands;
    AppendSame(c.nodes[id], commands);
    SameVotes(c.hist, c'.hist, Ids(c), id, c.nodes[id], c'.nodes[id]);
    assert c' == Update(c, id, c'.nodes[id], {}, c'.hist);
    hide Votes, NodeVotes, WonFairly, DoAppend;
    VotesAfter(c, id, c'.nodes[id], {}, c'.hist);
  }

  lemma AppendSame(s: NodeState, commands: seq<Command>)
    ensures var s' := AppendCommands(s, commands); s'.term == s.term && s'.votedFor == s.votedFor && s'.role == s.role
  {
  }

  lemma DeliverKeepsVotes(c: State, p: Packet)
    requires Votes(c) && EvenSize(Ids(c)) && LogsNonempty(c) && p in c.net && p.to in c.nodes
    ensures VotesKept(c, DeliverTo(c, p))
  {
    assert PacketVotes(c.hist, Ids(c), p);
    hide Votes, VotesKept;
    match p.body
    case AppendReq(req) => AppendReqVotes(c, p.from, p.to, req);
    case VoteReq(req) => VoteReqVotes(c, p.from, p.to, req);
    case AppendResp(resp) => AppendRespVotes(c, p.from, p.to, resp);
    case VoteResp(resp) => VoteRespVotes(c, p.from, p.to, resp);
  }

  lemma StepKeepsVotes(c: State, a: Action)
    requires Votes(c) && Enabled(c, a) && EvenSize(Ids(c))
    ensures VotesKept(c, Next(c, a))
  {
    hide Votes, VotesKept;
    match a
    case Deliver(p) => DeliverKeepsVotes(c, p);
    case Timeout(id) => TimeoutVotes(c, id);
    case Replicate(id) => ReplicateVotes(c, id);
    case Commit(id) => CommitVotes(c, id);
    case Append(id, commands) => AppendVotes(c, id, commands);
  }

  // Runs of an even number of nodes

  lemma InitVotes(ids: set<NodeId>)
    ensures Votes(Init(ids)) && Ids(Init(ids)) == ids
  {
  }

  lemma {:induction false} RunVotes(g: Guards, t: Trace, i: nat)
    requires Run(g, t) && EvenSize(t.ids) && i < |t.states|
    ensures Votes(t.states[i]) && Ids(t.states[i]) == t.ids
  {
    hide Run, Votes, Next, Obeys, Enabled, EvenSize;
    RunBegins(g, t);
    if i == 0 {
      InitVotes(t.ids);
    } else {
      RunVotes(g, t, i - 1);
      StepAt(g, t, i - 1);
      StepKeepsVotes(t.states[i - 1], t.actions[i - 1]);
    }
  }

  lemma WonKept(g: Guards, t: Trace, i: nat, term: Term, id: NodeId)
    requires Run(g, t) && EvenSize(t.ids) && i + 1 < |t.states| && Won(t.states[i].hist, term, id)
    ensures Won(t.states[i + 1].hist, term, id)
  {
    hide Run, Votes, Next, Obeys, Enabled, EvenSize;
    StepAt(g, t, i);
    RunVotes(g, t, i);
    StepKeepsVotes(t.states[i], t.actions[i]);
  }

  /** A term that has been won stays won by the same node. */
  lemma {:induction false} WonStays(g: Guards, t: Trace, i: nat, j: nat, term: Term, id: NodeId)
    requires Run(g, t) && EvenSize(t.ids) && i <= j < |t.states| && Won(t.states[i].hist, term, id)
    ensures Won(t.states[j].hist, term, id)
    decreases j - i
  {
    hide Run, Won, EvenSize;
    if i < j {
      WonStays(g, t, i, j - 1, term, id);
      WonKept(g, t, j - 1, term, id);
    }
  }

  lemma LeaderHasWon(c: State, id: NodeId, term: Term)
    requires Votes(c) && Leads(c, id, term)
    ensures Won(c.hist, term, id)
  {
    assert NodeVotes(c.hist, Ids(c), id, c.nodes[id]);
  }

  /** Clusters of even size never have two leaders of one term, whatever the guards. */
  lemma EvenElectOne(g: Guards, t: Trace, i: nat, j: nat, a: NodeId, b: NodeId, term: Term)
    requires Run(g, t) && EvenSize(t.ids) && i <= j < |t.states|
    requires Leads(t.states[i], a, term) && Leads(t.states[j], b, term)
    ensures a == b
  {
    hide Run, Votes;
    RunVotes(g, t, i);
    RunVotes(g, t, j);
    LeaderHasWon(t.states[i], a, term);
    LeaderHasWon(t.states[j], b, term);
    WonStays(g, t, i, j, term, a);
  }

  // Runs of an odd number of nodes

  lemma {:induction false} SomeOf(s: set<NodeId>, n: nat) returns (r: set<NodeId>)
    requires n <= |s|
    ensures r <= s && |r| == n
  {
    if n == 0 {
      r := {};
    } else {
      var x :| x in s;
      r := SomeOf(s - {x}, n - 1);
      r := r + {x};
    }
  }

  /** Two majorities of an odd number of nodes that share only `l`; `x` is in the second. */
  lemma Halves(ids: set<NodeId>, l: NodeId, x: NodeId) returns (v: set<NodeId>)
    requires !EvenSize(ids) && |ids| >= 3 && l in ids && x in ids && l != x
    ensures v <= ids && l in v && x !in v
    ensures IsMajority(|v|, |ids|) && IsMajority(|ids - v + {l}|, |ids|)
  {
    var rest := ids - {l, x};
    assert |{l, x}| == 2;
    assert |rest| == |ids| - 2;
    var r := SomeOf(rest, |ids| / 2);
    v := r + {l};
    assert |v| == |ids| / 2 + 1;
    assert |ids - v| == |ids| - |v|;
  }

  lemma TwoNodes(ids: set<NodeId>) returns (l: NodeId, x: NodeId)
    requires |ids| >= 2
    ensures l in ids && x in ids && l != x
  {
    l :| l in ids;
    assert |ids - {l}| > 0;
    x :| x in ids - {l};
  }

  lemma Waiting(g: Guards, ids: set<NodeId>, x: NodeId) returns (t: Trace)
    requires x in ids
    ensures RunsTo(g, t) && t.ids == ids && t.states[0] == Init(ids)
    ensures Last(t).nodes == (map id | id in ids :: INITIAL)[x := BecomeCandidate(INITIAL, x)]
    ensures forall u | u in ids :: Packet(x, u, VoteReq(VoteRequestOf(BecomeCandidate(INITIAL, x), x))) in Last(t).net
  {
    hide Path, AllQuiet;
    var t0 := Start(g, ids);
    t := AskVotes(g, t0, x);
  }

  /** Node `x` runs for term 1 and waits, while `l` wins the term with the votes of `v`. */
  lemma WaitingAndLeading(g: Guards, ids: set<NodeId>, l: NodeId, x: NodeId, v: set<NodeId>) returns (t: Trace)
    requires l in v && x in ids && x !in v && v <= ids && IsMajority(|v|, |ids|)
    ensures RunsTo(g, t) && t.ids == ids && t.states[0] == Init(ids)
    ensures Last(t).nodes[x] == BecomeCandidate(INITIAL, x)
    ensures Last(t).nodes[l] == BecomeLeader(INITIAL.(term := 1), ids)
    ensures forall u | u in ids && u !in v && u != x :: Last(t).nodes[u] == INITIAL
    ensures forall u | u in ids :: Packet(x, u, VoteReq(VoteRequestOf(BecomeCandidate(INITIAL, x), x))) in Last(t).net
  {
    assert WillGrant(INITIAL, INITIAL) && INITIAL.log != [] && !INITIAL.role.Leader?;
    var t1 := Waiting(g, ids, x);
    hide Path, AllQuiet, IsMajority, VoteRequestOf, Voted, Announced, WillGrant, BecomeCandidate, BecomeLeader;
    t := Elect(g, t1, l, v);
  }

  /** In every cluster of odd size with at least three nodes, without G1, some run has two leaders of
      term 1: the first leader, whose vote its victory cleared, grants the term to a candidate that
      has been waiting since before. */
  lemma OddElectTwo(g: Guards, ids: set<NodeId>) returns (t: Trace, l: NodeId, x: NodeId)
    requires !g.oneVote && !EvenSize(ids) && |ids| >= 3
    ensures Run(g, t) && NoLeaderTimesOut(t) && t.ids == ids
    ensures l != x && Leads(Last(t), l, 1) && Leads(Last(t), x, 1)
  {
    hide Path, AllQuiet, VoteRequestOf;
    l, x := TwoNodes(ids);
    var v := Halves(ids, l, x);
    var t2 := WaitingAndLeading(g, ids, l, x, v);
    var rest := ids - v + {l};
    assert {} + rest == rest;
    forall u | u in rest ensures MayGrant(Last(t2).nodes[u], BecomeCandidate(INITIAL, x), x) {
    }
    t := SecondLeader(g, t2, l, x, rest);
    PathIsRun(g, t);
  }

  lemma OneNode(ids: set<NodeId>, a: NodeId, b: NodeId)
    requires |ids| <= 1 && a in ids && b in ids
    ensures a == b
  {
    CardinalityOfSubset({a, b}, ids);
  }

  /** Exactly when at most one node leads each term, in all runs of a cluster: when G1 holds, or when
      the number of nodes is even or at most 1. */
  lemma ElectsOneIff(g: Guards, ids: set<NodeId>)
    ensures ElectsOne(g, ids) <==> g.oneVote || EvenSize(ids) || |ids| <= 1
  {
    if g.oneVote || EvenSize(ids) || |ids| <= 1 {
      forall t: Trace, i: nat, j: nat, a: NodeId, b: NodeId, term: Term
        | Run(g, t) && t.ids == ids && i <= j < |t.states| && Leads(t.states[i], a, term) && Leads(t.states[j], b, term)
        ensures a == b
      {
        if g.oneVote {
          ElectionSafety(g, t, i, j, a, b, term);
        } else if EvenSize(ids) {
          EvenElectOne(g, t, i, j, a, b, term);
        } else {
          LogsNeverEmpty(g, t, i);
          LogsNeverEmpty(g, t, j);
          OneNode(ids, a, b);
        }
      }
    } else {
      var t, l, x := OddElectTwo(g, ids);
      var i := |t.states| - 1;
      assert Leads(t.states[i], l, 1) && Leads(t.states[i], x, 1);
    }
  }
}
