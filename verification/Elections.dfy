/** Who can be elected: from any state on, a node whose log is at least as up-to-date as those of
    a majority can win a term, whatever the guards. So a property that would be lost by its
    election is lost in some run. */
module Elections {
  import opened Options
  import opened Messages
  import opened NodeSpec
  import opened Cluster
  import opened RunSteps

  function Grant(voter: NodeId, id: NodeId, term: Term): Packet {
    Packet(voter, id, VoteResp(RequestVoteResponse(term, true, term)))
  }

  /** A voter that has just granted `term`. */
  function Voted(v: NodeState, term: Term, id: NodeId): NodeState {
    SeeTerm(v, term).(votedFor := Some(id))
  }

  /** Node `v` would grant candidate `id`, which is in state `s`. */
  predicate MayGrant(v: NodeState, s: NodeState, id: NodeId)
    requires v.log != [] && s.log != []
  {
    && (v.term < s.term || (v.term == s.term && v.votedFor.GetOr(id) == id))
    && UpToDate(LastTerm(s.log), LastIndex(s.log), v.log)
  }

  lemma GrantOne(g: Guards, t: Trace, id: NodeId, v: NodeId) returns (t': Trace)
    requires RunsTo(g, t) && id in t.ids && v in t.ids
    requires var s, voter := Last(t).nodes[id], Last(t).nodes[v];
             && s.votedFor == Some(id) && MayGrant(voter, s, id)
             && (g.oneVote && v != id ==> !(voter.role.Leader? && voter.term == s.term))
             && Packet(id, v, VoteReq(VoteRequestOf(s, id))) in Last(t).net
    ensures RunsTo(g, t') && Continues(t, t') && Last(t).net <= Last(t').net
    ensures var n, s := Last(t).nodes, Last(t).nodes[id];
            Last(t').nodes == n[v := Voted(n[v], s.term, id)] && Grant(v, id, s.term) in Last(t').net
  {
    hide Path, AllQuiet, UpToDate;
    t' := ThenVoteReq(g, t, Packet(id, v, VoteReq(VoteRequestOf(Last(t).nodes[id], id))));
  }

  /** All of `voters` grant a candidate that they may grant. */
  lemma {:induction false} GrantAll(g: Guards, t: Trace, id: NodeId, voters: set<NodeId>) returns (t': Trace)
    requires RunsTo(g, t) && id in t.ids && voters <= t.ids && Last(t).nodes[id].votedFor == Some(id)
    requires var n, s := Last(t).nodes, Last(t).nodes[id];
             forall v | v in voters ::
               && MayGrant(n[v], s, id) && (g.oneVote && v != id ==> !(n[v].role.Leader? && n[v].term == s.term))
               && Packet(id, v, VoteReq(VoteRequestOf(s, id))) in Last(t).net
    ensures RunsTo(g, t') && Continues(t, t') && Last(t).net <= Last(t').net
    ensures forall v | v in voters :: Grant(v, id, Last(t).nodes[id].term) in Last(t').net
    ensures var n, s := Last(t).nodes, Last(t).nodes[id];
            forall v | v in t.ids :: Last(t').nodes[v] == if v in voters then Voted(n[v], s.term, id) else n[v]
    decreases |voters|
  {
    hide Path, AllQuiet, UpToDate;
    if voters == {} {
      t' := t;
    } else {
      var v :| v in voters;
      hide VoteRequestOf, Grant, MayGrant;
      var t1 := GrantOne(g, t, id, v);
      OwnVoteIsVoted(Last(t).nodes[id], id);
      assert Last(t1).nodes[id] == Last(t).nodes[id];
      t' := GrantAll(g, t1, id, voters - {v});
    }
  }

  lemma OwnVoteIsVoted(s: NodeState, id: NodeId)
    requires s.votedFor == Some(id)
    ensures Voted(s, s.term, id) == s
  {
  }

  /** What a candidate is after counting one more vote. */
  function Counted(s: NodeState, votes: set<NodeId>, ids: set<NodeId>): NodeState
    requires s.log != []
  {
    if IsMajority(|votes|, |ids|) then BecomeLeader(s, ids) else s.(role := Candidate(votes))
  }

  predicate Announced(s: NodeState, id: NodeId, ids: set<NodeId>, net: set<Packet>) {
    (forall to | to in ids :: SendDefined(s, to)) && AppendRequests(s, id, ids) <= net
  }

  lemma CountOne(g: Guards, t: Trace, id: NodeId, votes: set<NodeId>, v: NodeId) returns (t': Trace)
    requires RunsTo(g, t) && id in t.ids && Last(t).nodes[id].role == Candidate(votes)
    requires Grant(v, id, Last(t).nodes[id].term) in Last(t).net
    ensures RunsTo(g, t') && Continues(t, t') && Last(t).net <= Last(t').net
    ensures var s := Counted(Last(t).nodes[id], votes + {v}, t.ids);
            && Last(t').nodes == Last(t).nodes[id := s]
            && (s.role.Leader? ==> Announced(s, id, t.ids, Last(t').net))
  {
    hide Path, AllQuiet, AppendRequests;
    t' := ThenVoteResp(g, t, Grant(v, id, Last(t).nodes[id].term));
  }

  lemma SomeMissing(votes: set<NodeId>, rest: set<NodeId>, total: nat) returns (v: NodeId)
    requires !IsMajority(|votes|, total) && IsMajority(|votes + rest|, total)
    ensures v in rest && (votes + {v}) + (rest - {v}) == votes + rest
  {
    assert rest == {} ==> votes + rest == votes;
    v :| v in rest;
  }

  /** A candidate counts votes that are on their way until they are a majority. */
  lemma {:induction false} CountAll(g: Guards, t: Trace, id: NodeId, votes: set<NodeId>, rest: set<NodeId>)
      returns (t': Trace)
    requires RunsTo(g, t) && id in t.ids && Last(t).nodes[id].role == Candidate(votes)
    requires forall v | v in rest :: Grant(v, id, Last(t).nodes[id].term) in Last(t).net
    requires !IsMajority(|votes|, |t.ids|) && IsMajority(|votes + rest|, |t.ids|)
    ensures RunsTo(g, t') && Continues(t, t') && Last(t).net <= Last(t').net
    ensures var s := BecomeLeader(Last(t).nodes[id], t.ids);
            Last(t').nodes == Last(t).nodes[id := s] && Announced(s, id, t.ids, Last(t').net)
    decreases |rest|
  {
    hide Path, AllQuiet, Announced, Grant, IsMajority, BecomeLeader, SendDefined, AppendRequests;
    var v := SomeMissing(votes, rest, |t.ids|);
    SameLeader(Last(t).nodes[id], Candidate(votes + {v}), t.ids);
    var t1 := CountOne(g, t, id, votes, v);
    if IsMajority(|votes + {v}|, |t.ids|) {
      t' := t1;
    } else {
      t' := CountAll(g, t1, id, votes + {v}, rest - {v});
    }
  }

  lemma SameLeader(s: NodeState, role: Role, ids: set<NodeId>)
    requires s.log != []
    ensures BecomeLeader(s.(role := role), ids) == BecomeLeader(s, ids) && BecomeLeader(s, ids).role.Leader?
  {
  }

  /** Node `v` would grant node `id` in the next term. */
  predicate WillGrant(v: NodeState, s: NodeState)
    requires v.log != [] && s.log != []
  {
    v.term <= s.term && UpToDate(LastTerm(s.log), LastIndex(s.log), v.log)
  }

  /** Node `id` times out and the grants of `voters`, itself among them, are on their way. */
  lemma Ask(g: Guards, t: Trace, id: NodeId, voters: set<NodeId>) returns (t': Trace)
    requires RunsTo(g, t) && id in voters && voters <= t.ids && !Last(t).nodes[id].role.Leader?
    requires forall v | v in voters && v != id :: WillGrant(Last(t).nodes[v], Last(t).nodes[id])
    ensures RunsTo(g, t') && Continues(t, t') && Last(t).net <= Last(t').net
    ensures forall v | v in voters :: Grant(v, id, Last(t).nodes[id].term + 1) in Last(t').net
    ensures var n, s := Last(t).nodes, BecomeCandidate(Last(t).nodes[id], id);
            && (forall v | v in t.ids :: Last(t').nodes[v] ==
                  if v == id then s else if v in voters then Voted(n[v], s.term, id) else n[v])
            && forall to | to in t.ids :: Packet(id, to, VoteReq(VoteRequestOf(s, id))) in Last(t').net
  {
    hide Path, AllQuiet, Grant, VoteRequestOf;
    var s := BecomeCandidate(Last(t).nodes[id], id);
    var t1 := AskVotes(g, t, id);
    assert MayGrant(s, s, id);
    OwnVoteIsVoted(s, id);
    hide UpToDate, Voted;
    t' := GrantAll(g, t1, id, voters);
  }

  lemma WinnerIs(s: NodeState, id: NodeId, ids: set<NodeId>)
    requires s.log != []
    ensures BecomeLeader(BecomeCandidate(s, id), ids) == BecomeLeader(s.(term := s.term + 1), ids)
    ensures BecomeLeader(s.(term := s.term + 1), ids).term == s.term + 1
    ensures BecomeLeader(s.(term := s.term + 1), ids).log == s.log
    ensures VoteRequestOf(BecomeLeader(s.(term := s.term + 1), ids), id) == VoteRequestOf(BecomeCandidate(s, id), id)
    ensures !IsMajority(0, |ids|)
  {
  }

  /** Node `id` times out and wins the next term with the votes of `voters`. */
  lemma Elect(g: Guards, t: Trace, id: NodeId, voters: set<NodeId>) returns (t': Trace)
    requires RunsTo(g, t) && id in voters && voters <= t.ids && IsMajority(|voters|, |t.ids|)
    requires !Last(t).nodes[id].role.Leader?
    requires forall v | v in voters && v != id :: WillGrant(Last(t).nodes[v], Last(t).nodes[id])
    ensures RunsTo(g, t') && Continues(t, t') && Last(t).net <= Last(t').net
    ensures var n := Last(t).nodes; var leader := BecomeLeader(n[id].(term := n[id].term + 1), t.ids);
            && (forall v | v in t.ids :: Last(t').nodes[v] ==
                  if v == id then leader else if v in voters then Voted(n[v], leader.term, id) else n[v])
            && Announced(leader, id, t.ids, Last(t').net)
            && forall to | to in t.ids :: Packet(id, to, VoteReq(VoteRequestOf(leader, id))) in Last(t').net
  {
    hide Path, AllQuiet, WillGrant, Grant, Voted, Announced, VoteRequestOf, BecomeLeader, IsMajority;
    WinnerIs(Last(t).nodes[id], id, t.ids);
    var t1 := Ask(g, t, id, voters);
    assert {} + voters == voters;
    t' := CountAll(g, t1, id, {}, voters);
  }

  /** A node times out until its term is at least `floor`. */
  lemma {:induction false} CatchUp(g: Guards, t: Trace, id: NodeId, floor: Term) returns (t': Trace)
    requires RunsTo(g, t) && id in t.ids && !Last(t).nodes[id].role.Leader?
    ensures RunsTo(g, t') && Continues(t, t') && Last(t).net <= Last(t').net
    ensures var s, s' := Last(t).nodes[id], Last(t').nodes[id];
            && Last(t').nodes == Last(t).nodes[id := s'] && s'.term == Max(s.term, floor) && !s'.role.Leader?
            && s'.log == s.log && s'.commit == s.commit
    decreases floor - Last(t).nodes[id].term
  {
    hide Path, AllQuiet;
    if floor <= Last(t).nodes[id].term {
      t' := t;
    } else {
      var t1 := ThenTimeout(g, t, id);
      t' := CatchUp(g, t1, id, floor);
    }
  }
}
