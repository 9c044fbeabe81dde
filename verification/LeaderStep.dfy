/** What a leader does in its tick keeps the core invariant. */
module LeaderStep {
  import opened Messages
  import opened NodeSpec
  import opened Cluster
  import opened CoreInvariant
  import opened CoreFrame
  import opened AppendEntriesStep
  import opened VoteStep

  lemma NodeOkWithIndices(h: History, ids: set<NodeId>, id: NodeId, s: NodeState, s': NodeState)
    requires NodeOk(h, ids, id, s) && s.role.Leader? && s'.role.Leader?
    requires s' == s.(role := s'.role)
    requires s'.role.nextIndex.Keys == ids && s'.role.matchIndex.Keys == ids
    ensures NodeOk(h, ids, id, s')
  {
    forall a | a in h.acks && a.node == id ensures AckKept(h, s', a) {
      assert AckKept(h, s, a);
    }
  }

  lemma LeaderKeys(h: History, ids: set<NodeId>, id: NodeId, s: NodeState)
    requires NodeOk(h, ids, id, s) && s.role.Leader?
    ensures s.role.nextIndex.Keys == ids && s.role.matchIndex.Keys == ids
    ensures s.term in h.elections && h.elections[s.term].log == s.log && h.elections[s.term].leader == id
  {
  }

  lemma AppendRespKeepsCore(c: State, from: NodeId, id: NodeId, resp: AppendEntriesResponse)
    requires Core(c) && id in c.nodes && from in c.nodes
    ensures CoreKept(c, Update(c, id, HandleAppendResp(c.nodes[id], resp, from), {}, c.hist))
  {
    hide Core, CoreKept, HistOk, NodeOk;
    var s1 := SeeTerm(c.nodes[id], resp.currentTerm);
    var s' := HandleAppendResp(c.nodes[id], resp, from);
    CoreNode(c, id);
    NodeSeesTerm(c.hist, Ids(c), id, c.nodes[id], resp.currentTerm);
    if s1.role.Leader? {
      LeaderKeys(c.hist, Ids(c), id, s1);
      assert s'.role.nextIndex.Keys == Ids(c) && s'.role.matchIndex.Keys == Ids(c);
      NodeOkWithIndices(c.hist, Ids(c), id, s1, s');
    }
    CoreAfterQuiet(c, id, s', {});
  }

  lemma ReplicateKeepsCore(c: State, id: NodeId)
    requires Core(c) && id in c.nodes && forall to | to in Ids(c) :: SendDefined(c.nodes[id], to)
    ensures CoreKept(c, Update(c, id, c.nodes[id], AppendRequests(c.nodes[id], id, Ids(c)), c.hist))
  {
    hide Core, CoreKept, HistOk, NodeOk, PacketOk;
    CoreNode(c, id);
    AppendRequestsOk(c.hist, Ids(c), id, c.nodes[id]);
    CoreAfterQuiet(c, id, c.nodes[id], AppendRequests(c.nodes[id], id, Ids(c)));
  }

  // Commitment only writes the commit index and its record.

  lemma CommitHistory(h: History, h': History, ids: set<NodeId>, id: NodeId)
    requires HistOk(h, ids) && h' == h.(commits := h'.commits) && h.commits <= h'.commits
    ensures Grows(h, h') && OnlyBy(h, h', id) && HistOk(h', ids)
  {
    assert Grows(h, h') && OnlyBy(h, h', id);
    forall t | t in h'.elections ensures ElectionOk(h', ids, t) {
      ElectionOkGrows(h, h', ids, t);
    }
    forall key | key in h'.ballots ensures BallotOk(h', key) {
      BallotOkGrows(h, h', key);
    }
    forall a | a in h'.acks ensures AckOk(h', a) {
      AckOkGrows(h, h', a);
    }
    forall key, a | key in h'.ballots && a in h'.acks ensures BallotKeepsAck(h', key, a) {
      BallotKeepsAckGrows(h, h', key, a);
    }
  }

  lemma CommitNode(h: History, h': History, ids: set<NodeId>, id: NodeId, s: NodeState, commit: nat)
    requires NodeOk(h, ids, id, s) && h' == h.(commits := h'.commits) && h.commits <= h'.commits
    ensures NodeOk(h', ids, id, s.(commit := commit))
  {
    var s' := s.(commit := commit);
    assert Grows(h, h') && OnlyBy(h, h', id + 1);
    NodeOkGrows(h, h', ids, id + 1, id, s);
    forall a | a in h'.acks && a.node == id ensures AckKept(h', s', a) {
      assert AckKept(h', s, a);
    }
  }

  lemma CommitKeepsCore(c: State, id: NodeId)
    requires Core(c) && id in c.nodes && c.nodes[id].log != [] && c.nodes[id].role.Leader?
    ensures CoreKept(c, DoCommit(c, id))
  {
    hide Core, CoreKept, HistOk, NodeOk, HighestHeld;
    var c' := DoCommit(c, id);
    CoreNode(c, id);
    CommitHistory(c.hist, c'.hist, Ids(c), id);
    CommitNode(c.hist, c'.hist, Ids(c), id, c.nodes[id], c'.nodes[id].commit);
    CoreAfter(c, id, c'.nodes[id], {}, c'.hist);
  }

  // New commands extend the leader's log.

  function Extend(h: History, term: Term, log: Log): History
    requires term in h.elections
  {
    h.(elections := h.elections[term := h.elections[term].(log := log)])
  }

  lemma ExtendedGrows(h: History, t: Term, log: Log)
    requires t in h.elections && h.elections[t].log <= log
    ensures Grows(h, Extend(h, t, log)) && OnlyBy(h, Extend(h, t, log), h.elections[t].leader)
  {
  }

  /** The entries of an extended log are still those of the leaders of their terms. */
  lemma ExtendedLogOk(h: History, t: Term, log: Log)
    requires t in h.elections && h.elections[t].log <= log && LogOk(h, h.elections[t].log)
    requires forall k | |h.elections[t].log| <= k < |log| :: log[k].leaderTerm == t
    ensures LogOk(Extend(h, t, log), log)
  {
    var h' := Extend(h, t, log);
    ExtendedGrows(h, t, log);
    LogOkGrows(h, h', h.elections[t].log);
    hide Grows;
    forall k | 1 <= k < |log| ensures EntryOk(h', log, k) {
      if k < |h.elections[t].log| {
        assert EntryOk(h', h.elections[t].log, k);
        assert log[..k + 1] == h.elections[t].log[..k + 1];
      }
    }
  }

  lemma ExtendedElectionOk(h: History, ids: set<NodeId>, t: Term, log: Log)
    requires HistOk(h, ids) && t in h.elections && h.elections[t].log <= log
    requires forall k | |h.elections[t].log| <= k < |log| :: log[k].leaderTerm == t
    ensures Grows(h, Extend(h, t, log)) && OnlyBy(h, Extend(h, t, log), h.elections[t].leader)
    ensures ElectionOk(Extend(h, t, log), ids, t)
  {
    var h' := Extend(h, t, log);
    assert ElectionOk(h, ids, t);
    ExtendedGrows(h, t, log);
    ExtendedLogOk(h, t, log);
    hide Grows, OnlyBy, LogOk, HistOk;
    forall v | v in h.elections[t].voters ensures VotedFor(h', v, t, h.elections[t].leader) {
      VotedForGrows(h, h', v, t, h.elections[t].leader);
    }
  }

  lemma ExtendedHistory(h: History, ids: set<NodeId>, t: Term, log: Log)
    requires HistOk(h, ids) && t in h.elections && h.elections[t].log <= log
    requires forall k | |h.elections[t].log| <= k < |log| :: log[k].leaderTerm == t
    ensures HistOk(Extend(h, t, log), ids)
  {
    var h' := Extend(h, t, log);
    ExtendedElectionOk(h, ids, t, log);
    forall u | u in h'.elections ensures ElectionOk(h', ids, u) {
      if u != t {
        ElectionOkGrows(h, h', ids, u);
      }
    }
    forall key | key in h'.ballots ensures BallotOk(h', key) {
      BallotOkGrows(h, h', key);
    }
    forall a | a in h'.acks ensures AckOk(h', a) {
      AckOkGrows(h, h', a);
    }
    forall key, a | key in h'.ballots && a in h'.acks ensures BallotKeepsAck(h', key, a) {
      BallotKeepsAckGrows(h, h', key, a);
    }
  }

  lemma ExtendedNode(h: History, ids: set<NodeId>, id: NodeId, s: NodeState, log: Log)
    requires HistOk(h, ids) && NodeOk(h, ids, id, s) && s.role.Leader? && s.log <= log
    requires s.term in h.elections
    requires forall k | |s.log| <= k < |log| :: log[k].leaderTerm == s.term
    ensures NodeOk(Extend(h, s.term, log), ids, id, s.(log := log))
  {
    var h' := Extend(h, s.term, log);
    var s' := s.(log := log);
    ExtendedElectionOk(h, ids, s.term, log);
    OwnAcksGrow(h, h', id, s);
    forall a | a in h'.acks && a.node == id ensures AckKept(h', s', a) {
      assert AckKept(h', s, a);
    }
  }

  lemma AppendKeepsCore(c: State, id: NodeId, commands: seq<Command>)
    requires Core(c) && id in c.nodes && c.nodes[id].role.Leader?
    ensures CoreKept(c, DoAppend(c, id, commands))
  {
    hide Core, CoreKept, HistOk, NodeOk;
    var s := c.nodes[id];
    var s' := AppendCommands(s, commands);
    CoreNode(c, id);
    LeaderKeys(c.hist, Ids(c), id, s);
    ExtendedElectionOk(c.hist, Ids(c), s.term, s'.log);
    ExtendedHistory(c.hist, Ids(c), s.term, s'.log);
    ExtendedNode(c.hist, Ids(c), id, s, s'.log);
    CoreAfter(c, id, s', {}, Extend(c.hist, s.term, s'.log));
  }
}
