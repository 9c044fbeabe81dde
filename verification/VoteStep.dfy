/** Casting votes, counting them and starting elections keep the core invariant. The only
    step that needs guard G1 is granting a vote. */
module VoteStep {
  import opened Options
  import opened Messages
  import opened NodeSpec
  import opened Cluster
  import opened CoreInvariant
  import opened CoreFrame
  import opened AppendEntriesStep
  import opened Quorum

  lemma HistOkWithBallot(h: History, ids: set<NodeId>, key: VoteKey, b: Ballot, h': History)
    requires HistOk(h, ids) && key !in h.ballots
    requires h' == h.(ballots := h.ballots[key := b])
    requires BallotOk(h', key)
    requires forall a | a in h.acks :: BallotKeepsAck(h', key, a)
    ensures Grows(h, h') && OnlyBy(h, h', key.voter) && HistOk(h', ids)
  {
    assert Grows(h, h') && OnlyBy(h, h', key.voter);
    forall t | t in h'.elections ensures ElectionOk(h', ids, t) {
      ElectionOkGrows(h, h', ids, t);
    }
    forall k | k in h'.ballots ensures BallotOk(h', k) {
      if k != key {
        BallotOkGrows(h, h', k);
      }
    }
    forall a | a in h'.acks ensures AckOk(h', a) {
      AckOkGrows(h, h', a);
    }
    forall k, a | k in h'.ballots && a in h'.acks ensures BallotKeepsAck(h', k, a) {
      if k != key {
        BallotKeepsAckGrows(h, h', k, a);
      }
    }
  }

  /** A node that has voted in its term can only grant the same candidate again, unless it
      leads the term: that is the case G1 excludes. */
  lemma GrantRepeatsVote(h: History, ids: set<NodeId>, id: NodeId, s: NodeState, req: RequestVoteRequest)
    requires NodeOk(h, ids, id, s) && Grants(s, req) && s.term == req.candidateTerm
    requires s.role.Leader? ==> req.candidateId == id
    ensures VoteKey(id, s.term) in h.ballots ==> VotedFor(h, id, s.term, req.candidateId)
  {
  }

  lemma NotYetVoted(h: History, ids: set<NodeId>, key: VoteKey)
    requires HistOk(h, ids) && key !in h.ballots && Decisive(h, key)
    ensures key.term !in h.elections
  {
    assert key.term in h.elections ==> ElectionOk(h, ids, key.term);
  }

  /** A leader of a term that nobody leads cannot have superseded anything. */
  lemma HoldsBelow(h: History, h': History, log: Log, a: Ack, term: Term)
    requires AckOk(h, a) && h'.elections == h.elections
    requires Holds(h, log, a.term, a.index, term) && term !in h.elections
    ensures AckOk(h', a) && Holds(h', log, a.term, a.index, term - 1)
  {
    if !(Prefix(h, a.term, a.index) <= log) {
      var u :| u in h.elections && a.term < u <= term && !(Prefix(h, a.term, a.index) <= h.elections[u].start);
      assert u <= term - 1 && u in h'.elections;
    }
  }

  /** A vote cast in a term nobody leads yet is cast with everything confirmed before. */
  lemma FreshBallotKeepsAck(h: History, ids: set<NodeId>, id: NodeId, s: NodeState, b: Ballot, h': History, a: Ack)
    requires HistOk(h, ids) && NodeOk(h, ids, id, s) && a in h.acks
    requires VoteKey(id, s.term) !in h.ballots && b.log == s.log
    requires h' == h.(ballots := h.ballots[VoteKey(id, s.term) := b])
    ensures BallotKeepsAck(h', VoteKey(id, s.term), a)
  {
    if a.node == id && a.term < s.term && Decisive(h', VoteKey(id, s.term)) {
      assert AckKept(h, s, a);
      NotYetVoted(h, ids, VoteKey(id, s.term));
      HoldsBelow(h, h', s.log, a, s.term);
    }
  }

  lemma GrantedHistory(h: History, ids: set<NodeId>, id: NodeId, s: NodeState, from: NodeId, req: RequestVoteRequest)
    requires HistOk(h, ids) && NodeOk(h, ids, id, s) && VoteReqOk(h, from, req)
    requires Grants(s, req) && s.term == req.candidateTerm
    ensures var h' := RecordBallot(h, id, s.term, Ballot(req.candidateId, s.log));
            Grows(h, h') && OnlyBy(h, h', id) && HistOk(h', ids)
  {
    var key, b := VoteKey(id, s.term), Ballot(req.candidateId, s.log);
    var h' := RecordBallot(h, id, s.term, b);
    if key in h.ballots {
      GrowsReflexive(h, id);
    } else {
      assert BallotOk(h', key) by {
        assert BallotOk(h, VoteKey(from, s.term));
        assert Grows(h, h');
        LogOkGrows(h, h', s.log);
      }
      forall a | a in h.acks ensures BallotKeepsAck(h', key, a) {
        FreshBallotKeepsAck(h, ids, id, s, b, h', a);
      }
      HistOkWithBallot(h, ids, key, b, h');
    }
  }

  /** What a node knew stays true when its own ballot is recorded. */
  lemma OwnAcksGrow(h: History, h': History, id: NodeId, s: NodeState)
    requires Grows(h, h') && h'.acks == h.acks && AcksKept(h, id, s)
    ensures AcksKept(h', id, s)
  {
    forall a | a in h'.acks && a.node == id ensures AckKept(h', s, a) {
      assert AckKept(h, s, a);
      HoldsGrows(h, h', s.log, a, s.term, s.term);
    }
  }

  lemma GrantedNode(h: History, ids: set<NodeId>, id: NodeId, s: NodeState, from: NodeId, req: RequestVoteRequest)
    requires HistOk(h, ids) && NodeOk(h, ids, id, s) && VoteReqOk(h, from, req)
    requires Grants(s, req) && s.term == req.candidateTerm
    requires s.role.Leader? ==> req.candidateId == id
    ensures var h' := RecordBallot(h, id, s.term, Ballot(req.candidateId, s.log));
            NodeOk(h', ids, id, s.(votedFor := Some(req.candidateId))) && VotedFor(h', id, s.term, req.candidateId)
  {
    var h' := RecordBallot(h, id, s.term, Ballot(req.candidateId, s.log));
    GrantRepeatsVote(h, ids, id, s, req);
    GrantedHistory(h, ids, id, s, from, req);
    LogOkGrows(h, h', s.log);
    OwnAcksGrow(h, h', id, s);
    var s' := s.(votedFor := Some(req.candidateId));
    assert AcksKept(h', id, s') by {
      forall a | a in h'.acks && a.node == id ensures AckKept(h', s', a) {
        assert AckKept(h', s, a);
      }
    }
    if s.role.Candidate? {
      forall v | v in s.role.votes ensures VotedFor(h', v, s.term, id) {
        VotedForGrows(h, h', v, s.term, id);
      }
    }
  }

  lemma GrantKeepsCore(c: State, from: NodeId, id: NodeId, s: NodeState, req: RequestVoteRequest)
    requires Core(c) && id in c.nodes && from in c.nodes && VoteReqOk(c.hist, from, req)
    requires NodeOk(c.hist, Ids(c), id, s) && s.log != []
    requires Grants(s, req) && s.term == req.candidateTerm
    requires s.role.Leader? ==> req.candidateId == id
    ensures var resp := RequestVoteResponse(s.term, true, req.candidateTerm);
            CoreKept(c, Update(c, id, s.(votedFor := Some(req.candidateId)), {Packet(id, from, VoteResp(resp))},
                               RecordBallot(c.hist, id, s.term, Ballot(req.candidateId, s.log))))
  {
    hide Core, CoreKept, HistOk, NodeOk;
    var h' := RecordBallot(c.hist, id, s.term, Ballot(req.candidateId, s.log));
    var reply := Packet(id, from, VoteResp(RequestVoteResponse(s.term, true, req.candidateTerm)));
    CoreNode(c, id);
    GrantedHistory(c.hist, Ids(c), id, s, from, req);
    GrantedNode(c.hist, Ids(c), id, s, from, req);
    assert PacketOk(h', Ids(c), reply);
    CoreAfter(c, id, s.(votedFor := Some(req.candidateId)), {reply}, h');
  }

  lemma VoteReqKeepsCore(c: State, from: NodeId, id: NodeId, req: RequestVoteRequest)
    requires Core(c) && id in c.nodes && from in c.nodes && VoteReqOk(c.hist, from, req)
    requires c.nodes[id].log != []
    requires !(c.nodes[id].role.Leader? && req.candidateTerm == c.nodes[id].term && req.candidateId != id
               && Grants(c.nodes[id], req))
    ensures CoreKept(c, DoVoteReq(c, from, id, req))
  {
    hide Core, CoreKept, HistOk, NodeOk;
    var s1 := SeeTerm(c.nodes[id], req.candidateTerm);
    CoreNode(c, id);
    NodeSeesTerm(c.hist, Ids(c), id, c.nodes[id], req.candidateTerm);
    if req.candidateTerm < s1.term {
      RefusalKeepsCore(c, id, s1, Packet(id, from, VoteResp(RequestVoteResponse(0, false, 0))));
    } else if Grants(s1, req) {
      GrantKeepsCore(c, from, id, s1, req);
    } else {
      RefusalKeepsCore(c, id, s1, Packet(id, from, VoteResp(RequestVoteResponse(s1.term, false, 0))));
    }
  }

  // Becoming a candidate

  lemma CandidateHistory(h: History, ids: set<NodeId>, id: NodeId, s: NodeState)
    requires HistOk(h, ids) && NodeOk(h, ids, id, s)
    ensures var h' := RecordBallot(h, id, s.term + 1, Ballot(id, s.log));
            && VoteKey(id, s.term + 1) !in h.ballots
            && Grows(h, h') && OnlyBy(h, h', id) && HistOk(h', ids)
  {
    var key, b := VoteKey(id, s.term + 1), Ballot(id, s.log);
    var h' := RecordBallot(h, id, s.term + 1, b);
    assert key !in h.ballots;
    NodeSeesTerm(h, ids, id, s, s.term + 1);
    assert Grows(h, h');
    LogOkGrows(h, h', s.log);
    assert BallotOk(h', key);
    forall a | a in h.acks ensures BallotKeepsAck(h', key, a) {
      FreshBallotKeepsAck(h, ids, id, SeeTerm(s, s.term + 1), b, h', a);
    }
    HistOkWithBallot(h, ids, key, b, h');
  }

  lemma CandidateNode(h: History, ids: set<NodeId>, id: NodeId, s: NodeState)
    requires HistOk(h, ids) && NodeOk(h, ids, id, s)
    ensures NodeOk(RecordBallot(h, id, s.term + 1, Ballot(id, s.log)), ids, id, BecomeCandidate(s, id))
  {
    var h' := RecordBallot(h, id, s.term + 1, Ballot(id, s.log));
    var s' := BecomeCandidate(s, id);
    CandidateHistory(h, ids, id, s);
    LogOkGrows(h, h', s.log);
    assert s'.term in h.elections ==> ElectionOk(h, ids, s'.term);
    forall a | a in h'.acks && a.node == id ensures AckKept(h', s', a) {
      assert AckKept(h, s, a);
      HoldsGrows(h, h', s.log, a, s.term, s'.term);
    }
  }

  lemma TimeoutKeepsCore(c: State, id: NodeId)
    requires Core(c) && id in c.nodes && c.nodes[id].log != []
    ensures CoreKept(c, DoTimeout(c, id))
  {
    hide Core, CoreKept, HistOk, NodeOk;
    var s := c.nodes[id];
    var s' := BecomeCandidate(s, id);
    var h' := RecordBallot(c.hist, id, s'.term, Ballot(id, s'.log));
    CoreNode(c, id);
    CandidateHistory(c.hist, Ids(c), id, s);
    CandidateNode(c.hist, Ids(c), id, s);
    forall p | p in VoteRequests(s', id, Ids(c)) ensures PacketOk(h', Ids(c), p) {
    }
    CoreAfter(c, id, s', VoteRequests(s', id, Ids(c)), h');
  }

  // Counting votes

  lemma CountedKeepsCore(c: State, from: NodeId, id: NodeId, s: NodeState)
    requires Core(c) && id in c.nodes && from in c.nodes && NodeOk(c.hist, Ids(c), id, s)
    requires s.role.Candidate? && VotedFor(c.hist, from, s.term, id)
    ensures CoreKept(c, Update(c, id, s.(role := Candidate(s.role.votes + {from})), {}, c.hist))
  {
    var s' := s.(role := Candidate(s.role.votes + {from}));
    forall a | a in c.hist.acks && a.node == id ensures AckKept(c.hist, s', a) {
      assert AckKept(c.hist, s, a);
    }
    assert NodeOk(c.hist, Ids(c), id, s');
    hide Core, CoreKept, HistOk, NodeOk;
    CoreAfterQuiet(c, id, s', {});
  }

  /** At most one candidate can gather a majority in a term. */
  lemma TermStillOpen(h: History, ids: set<NodeId>, id: NodeId, s: NodeState, votes: set<NodeId>)
    requires HistOk(h, ids) && NodeOk(h, ids, id, s) && s.role.Candidate?
    requires votes <= ids && IsMajority(|votes|, |ids|)
    requires forall v | v in votes :: VotedFor(h, v, s.term, id)
    ensures s.term !in h.elections
  {
    if s.term in h.elections {
      assert ElectionOk(h, ids, s.term);
      var v := MajoritiesIntersect(votes, h.elections[s.term].voters, ids);
      assert false;
    }
  }

  function Elect(h: History, id: NodeId, votes: set<NodeId>, s: NodeState): History {
    h.(elections := h.elections[s.term := Election(id, votes, s.log, s.log)])
  }

  /** A candidate of a term nobody has won has entries of earlier terms only. */
  lemma EntriesOfPast(h: History, ids: set<NodeId>, id: NodeId, s: NodeState)
    requires HistOk(h, ids) && NodeOk(h, ids, id, s) && s.role.Candidate? && s.term !in h.elections
    ensures forall k | 0 <= k < |s.log| :: s.log[k].leaderTerm < s.term
  {
    assert BallotOk(h, VoteKey(id, s.term));
    forall k | 0 <= k < |s.log| ensures s.log[k].leaderTerm < s.term {
      if k >= 1 {
        assert EntryOk(h, s.log, k);
      }
    }
  }

  lemma NewElectionGrows(h: History, id: NodeId, s: NodeState, votes: set<NodeId>)
    requires LogOk(h, s.log) && s.term !in h.elections
    ensures var h' := Elect(h, id, votes, s); Grows(h, h') && OnlyBy(h, h', id) && LogOk(h', s.log)
  {
    var h' := Elect(h, id, votes, s);
    assert Grows(h, h');
    LogOkGrows(h, h', s.log);
  }

  lemma NewElectionOk(h: History, ids: set<NodeId>, id: NodeId, s: NodeState, votes: set<NodeId>)
    requires HistOk(h, ids) && NodeOk(h, ids, id, s) && s.role.Candidate? && id in ids
    requires votes <= ids && IsMajority(|votes|, |ids|)
    requires forall v | v in votes :: VotedFor(h, v, s.term, id)
    requires s.term !in h.elections
    ensures Grows(h, Elect(h, id, votes, s)) && OnlyBy(h, Elect(h, id, votes, s), id)
    ensures ElectionOk(Elect(h, id, votes, s), ids, s.term)
  {
    var h' := Elect(h, id, votes, s);
    NewElectionGrows(h, id, s, votes);
    assert BallotOk(h, VoteKey(id, s.term));
    EntriesOfPast(h, ids, id, s);
    hide Grows, OnlyBy, LogOk, HistOk;
    forall v | v in votes ensures VotedFor(h', v, s.term, id) {
      VotedForGrows(h, h', v, s.term, id);
    }
  }

  lemma ElectedHistory(h: History, ids: set<NodeId>, id: NodeId, s: NodeState, votes: set<NodeId>)
    requires HistOk(h, ids) && s.term !in h.elections
    requires Grows(h, Elect(h, id, votes, s))
    requires ElectionOk(Elect(h, id, votes, s), ids, s.term)
    ensures HistOk(Elect(h, id, votes, s), ids)
  {
    var h' := Elect(h, id, votes, s);
    forall t | t in h'.elections ensures ElectionOk(h', ids, t) {
      if t != s.term {
        ElectionOkGrows(h, h', ids, t);
      }
    }
    forall key | key in h'.ballots ensures BallotOk(h', key) {
      BallotOkGrows(h, h', key);
    }
    forall a | a in h'.acks ensures AckOk(h', a) {
      AckOkGrows(h, h', a);
    }
    forall key, a | key in h'.ballots && a in h'.acks ensures BallotKeepsAck(h', key, a) {
      BallotKeepsAckGrows(h, h', key, a);
    }
  }

  lemma ElectedNode(h: History, ids: set<NodeId>, id: NodeId, s: NodeState, votes: set<NodeId>)
    requires HistOk(h, ids) && NodeOk(h, ids, id, s) && s.role.Candidate?
    requires Grows(h, Elect(h, id, votes, s)) && s.log != []
    ensures NodeOk(Elect(h, id, votes, s), ids, id, BecomeLeader(s, ids))
  {
    var h' := Elect(h, id, votes, s);
    var s' := BecomeLeader(s, ids);
    LogOkGrows(h, h', s.log);
    OwnAcksGrow(h, h', id, s);
    forall a | a in h'.acks && a.node == id ensures AckKept(h', s', a) {
      assert AckKept(h', s, a);
    }
  }

  /** Each request a leader sends is a slice of its log. */
  lemma AppendRequestsOk(h: History, ids: set<NodeId>, id: NodeId, s: NodeState)
    requires NodeOk(h, ids, id, s) && id in ids
    requires forall to | to in ids :: SendDefined(s, to)
    ensures forall p | p in AppendRequests(s, id, ids) :: PacketOk(h, ids, p)
  {
    forall p | p in AppendRequests(s, id, ids) ensures PacketOk(h, ids, p) {
      var next := Lookup(s.role.nextIndex, p.to);
      assert SendDefined(s, p.to);
      assert s.log[..next] + s.log[next..] == s.log;
    }
  }

  lemma ElectionKeepsCore(c: State, id: NodeId, s: NodeState, votes: set<NodeId>)
    requires Core(c) && id in c.nodes && NodeOk(c.hist, Ids(c), id, s) && s.log != []
    requires s.role.Candidate? && votes <= Ids(c) && IsMajority(|votes|, |Ids(c)|)
    requires forall v | v in votes :: VotedFor(c.hist, v, s.term, id)
    ensures forall to | to in Ids(c) :: SendDefined(BecomeLeader(s, Ids(c)), to)
    ensures CoreKept(c, Update(c, id, BecomeLeader(s, Ids(c)), AppendRequests(BecomeLeader(s, Ids(c)), id, Ids(c)),
                               Elect(c.hist, id, votes, s)))
  {
    hide Core, CoreKept, HistOk, NodeOk, ElectionOk, PacketOk;
    var ids, s', h' := Ids(c), BecomeLeader(s, Ids(c)), Elect(c.hist, id, votes, s);
    CoreNode(c, id);
    TermStillOpen(c.hist, ids, id, s, votes);
    NewElectionOk(c.hist, ids, id, s, votes);
    ElectedHistory(c.hist, ids, id, s, votes);
    ElectedNode(c.hist, ids, id, s, votes);
    AppendRequestsOk(h', ids, id, s');
    CoreAfter(c, id, s', AppendRequests(s', id, ids), h');
  }

  lemma VotesOf(h: History, ids: set<NodeId>, id: NodeId, s: NodeState)
    requires NodeOk(h, ids, id, s) && s.role.Candidate?
    ensures s.role.votes <= ids && forall v | v in s.role.votes :: VotedFor(h, v, s.term, id)
  {
  }

  lemma VoteRespKeepsCore(c: State, from: NodeId, id: NodeId, resp: RequestVoteResponse)
    requires Core(c) && id in c.nodes && from in c.nodes && c.nodes[id].log != []
    requires resp.voteGranted ==> VotedFor(c.hist, from, resp.candidateTerm, id)
    ensures CoreKept(c, DoVoteResp(c, from, id, resp))
  {
    hide Core, CoreKept, HistOk, NodeOk;
    var s := SeeTerm(c.nodes[id], resp.currentTerm);
    CoreNode(c, id);
    NodeSeesTerm(c.hist, Ids(c), id, c.nodes[id], resp.currentTerm);
    if !Counts(s, resp) {
      CoreAfterQuiet(c, id, s, {});
    } else if Wins(s, resp, from, |Ids(c)|) {
      VotesOf(c.hist, Ids(c), id, s);
      ElectionKeepsCore(c, id, s, s.role.votes + {from});
    } else {
      CountedKeepsCore(c, from, id, s);
    }
  }
}
