/** Handling an AppendEntries request keeps the core invariant. */
module AppendEntriesStep {
  import opened Options
  import opened Messages
  import opened NodeSpec
  import opened Cluster
  import opened CoreInvariant
  import opened CoreFrame

  /** Log matching: an index and a term determine the entry and everything before it. */
  lemma LogsMatch(h: History, a: Log, b: Log, k: nat)
    requires LogOk(h, a) && LogOk(h, b) && k < |a| && k < |b|
    requires a[k].leaderTerm == b[k].leaderTerm
    ensures a[..k + 1] == b[..k + 1]
  {
    if k == 0 {
      assert a[..1] == [SENTINEL] && b[..1] == [SENTINEL];
    } else {
      assert EntryOk(h, a, k) && EntryOk(h, b, k);
    }
  }

  /** Terms never decrease along a log. */
  lemma TermsSorted(h: History, ids: set<NodeId>, log: Log, j: nat, k: nat)
    requires HistOk(h, ids) && LogOk(h, log) && j <= k < |log|
    ensures log[j].leaderTerm <= log[k].leaderTerm
  {
    if 1 <= k {
      assert EntryOk(h, log, k);
      var t := log[k].leaderTerm;
      assert ElectionOk(h, ids, t);
      assert log[j] == h.elections[t].log[j];
    }
  }

  lemma LogOkPrefix(h: History, log: Log, k: nat)
    requires LogOk(h, log) && 0 < k <= |log|
    ensures LogOk(h, log[..k])
  {
    forall i | 1 <= i < k ensures EntryOk(h, log[..k], i) {
      assert EntryOk(h, log, i);
      assert log[..k][..i + 1] == log[..i + 1];
    }
  }

  /** Where a request that is a slice of `g` meets a log that agrees with `g` at its start,
      the result is the old log or the part of `g` the request reaches. */
  lemma MergedCases(log: Log, g: Log, prev: nat, entries: Log)
    requires prev < |log| && prev < |g| && log[..prev + 1] == g[..prev + 1]
    requires g[..prev + 1] + entries <= g
    ensures prev + |entries| < |g|
    ensures var m := Merged(log, prev, entries); var n := prev + |entries| + 1;
            g[..n] <= m && (m == g[..n] || m == log)
  {
    assert |g[..prev + 1] + entries| == prev + |entries| + 1;
    assert g[..prev + |entries| + 1] == g[..prev + 1] + entries;
  }

  /** What the old log shares with the leader's log is not lost. */
  lemma MergedKeeps(log: Log, g: Log, prev: nat, entries: Log, p: Log)
    requires prev < |log| && prev < |g| && log[..prev + 1] == g[..prev + 1]
    requires g[..prev + 1] + entries <= g
    requires p <= log && p <= g
    ensures p <= Merged(log, prev, entries)
  {
    MergedCases(log, g, prev, entries);
    var n := prev + |entries| + 1;
    if |p| > n {
      assert g[..n] == p[..n] == log[..n];
      assert g[..n] == g[..prev + 1] + entries;
    }
  }

  lemma NodeSeesTerm(h: History, ids: set<NodeId>, id: NodeId, s: NodeState, term: Term)
    requires HistOk(h, ids) && NodeOk(h, ids, id, s)
    ensures NodeOk(h, ids, id, SeeTerm(s, term))
  {
    if s.term < term {
      var s1 := SeeTerm(s, term);
      assert VoteKey(id, term) !in h.ballots;
      if term in h.elections {
        assert ElectionOk(h, ids, term);
      }
      forall a | a in h.acks && a.node == id ensures AckKept(h, s1, a) {
        assert AckKept(h, s, a);
        GrowsReflexive(h, id);
        HoldsGrows(h, h, s.log, a, s.term, term);
      }
    }
  }

  /** The request comes from the leader of the node's term and meets its log in `prev`. */
  ghost predicate Meets(h: History, s: NodeState, from: NodeId, req: AppendEntriesRequest) {
    && AppendReqOk(h, from, req) && s.term == req.leaderTerm && Accepts(s, req)
    && s.log[..req.prevLogIndex + 1] == h.elections[s.term].log[..req.prevLogIndex + 1]
  }

  lemma AcceptedMeets(h: History, ids: set<NodeId>, id: NodeId, s: NodeState, from: NodeId, req: AppendEntriesRequest)
    requires HistOk(h, ids) && NodeOk(h, ids, id, s)
    requires AppendReqOk(h, from, req) && s.term == req.leaderTerm && Accepts(s, req)
    ensures Meets(h, s, from, req)
  {
    assert ElectionOk(h, ids, s.term);
    LogsMatch(h, s.log, h.elections[s.term].log, req.prevLogIndex);
  }

  /** A confirmation made before survives the merge. */
  lemma AckSurvives(h: History, ids: set<NodeId>, s: NodeState, from: NodeId, req: AppendEntriesRequest, a: Ack)
    requires HistOk(h, ids) && Meets(h, s, from, req)
    requires a in h.acks && AckKept(h, s, a)
    ensures Holds(h, Merged(s.log, req.prevLogIndex, req.entries), a.term, a.index, s.term)
  {
    var e := h.elections[s.term];
    var p := Prefix(h, a.term, a.index);
    assert ElectionOk(h, ids, s.term);
    if p <= s.log {
      if a.term == s.term || p <= e.start {
        assert p <= e.log;
        MergedKeeps(s.log, e.log, req.prevLogIndex, req.entries, p);
      } else {
        assert Superseded(h, a.term, a.index, s.term);
      }
    }
  }

  /** The node after an accepted request, against the history before the new confirmations. */
  lemma AcceptedNode(h: History, ids: set<NodeId>, id: NodeId, s: NodeState, from: NodeId,
                     req: AppendEntriesRequest, commit: nat)
    requires HistOk(h, ids) && NodeOk(h, ids, id, s) && Meets(h, s, from, req)
    ensures NodeOk(h, ids, id, s.(log := Merged(s.log, req.prevLogIndex, req.entries), commit := commit))
  {
    var e := h.elections[s.term];
    var log := Merged(s.log, req.prevLogIndex, req.entries);
    var s' := s.(log := log, commit := commit);
    assert ElectionOk(h, ids, s.term);
    MergedCases(s.log, e.log, req.prevLogIndex, req.entries);
    if log != s.log {
      LogOkPrefix(h, e.log, req.prevLogIndex + |req.entries| + 1);
    }
    forall a | a in h.acks && a.node == id ensures AckKept(h, s', a) {
      assert AckKept(h, s, a);
      AckSurvives(h, ids, s, from, req, a);
    }
  }

  lemma AcksGrow(h: History, id: NodeId, term: Term, k: nat)
    ensures var h' := h.(acks := h.acks + AcksUpTo(id, term, k)); Grows(h, h') && OnlyBy(h, h', id)
  {
  }

  lemma HistOkWithAcks(h: History, ids: set<NodeId>, id: NodeId, s: NodeState, k: nat)
    requires HistOk(h, ids) && NodeOk(h, ids, id, s)
    requires AckOk(h, Ack(id, s.term, k))
    ensures var h' := h.(acks := h.acks + AcksUpTo(id, s.term, k));
            Grows(h, h') && OnlyBy(h, h', id) && HistOk(h', ids)
  {
    var h' := h.(acks := h.acks + AcksUpTo(id, s.term, k));
    AcksGrow(h, id, s.term, k);
    hide Grows, OnlyBy, ElectionOk, BallotOk, LogOk;
    forall t | t in h'.elections ensures ElectionOk(h', ids, t) {
      ElectionOkGrows(h, h', ids, t);
    }
    forall key | key in h'.ballots ensures BallotOk(h', key) {
      BallotOkGrows(h, h', key);
    }
    forall key, a | key in h'.ballots && a in h'.acks ensures BallotKeepsAck(h', key, a) {
      if a in h.acks {
        BallotKeepsAckGrows(h, h', key, a);
      }
    }
  }

  /** New confirmations of what the node's log holds. */
  lemma NodeOkWithAcks(h: History, ids: set<NodeId>, id: NodeId, s: NodeState, k: nat)
    requires HistOk(h, ids) && NodeOk(h, ids, id, s)
    requires AckOk(h, Ack(id, s.term, k)) && Prefix(h, s.term, k) <= s.log
    ensures NodeOk(h.(acks := h.acks + AcksUpTo(id, s.term, k)), ids, id, s)
  {
    var h' := h.(acks := h.acks + AcksUpTo(id, s.term, k));
    HistOkWithAcks(h, ids, id, s, k);
    LogOkGrows(h, h', s.log);
    forall a | a in h'.acks && a.node == id ensures AckKept(h', s, a) {
      if a in h.acks {
        assert AckKept(h, s, a);
        HoldsGrows(h, h', s.log, a, s.term, s.term);
      } else {
        assert Prefix(h', a.term, a.index) <= Prefix(h, s.term, k);
      }
    }
    forall v | v in ids ensures VotedFor(h', v, s.term, id) == VotedFor(h, v, s.term, id) {}
  }

  /** The reply to an accepted request confirms exactly the request's last index. */
  lemma AcceptedReply(h: History, ids: set<NodeId>, id: NodeId, s: NodeState, from: NodeId, req: AppendEntriesRequest)
    requires HistOk(h, ids) && NodeOk(h, ids, id, SeeTerm(s, req.leaderTerm)) && AppendReqOk(h, from, req)
    requires Accepts(SeeTerm(s, req.leaderTerm), req)
    ensures var (s', resp) := HandleAppendReq(s, req); var k := req.prevLogIndex + |req.entries|;
            && s'.term == req.leaderTerm && resp == AppendEntriesResponse(s'.term, Some(k))
            && AckOk(h, Ack(id, s'.term, k)) && Prefix(h, s'.term, k) <= s'.log
            && NodeOk(h, ids, id, s')
  {
    var s1 := SeeTerm(s, req.leaderTerm);
    var (s', _) := HandleAppendReq(s, req);
    AcceptedMeets(h, ids, id, s1, from, req);
    MergedCases(s1.log, h.elections[s1.term].log, req.prevLogIndex, req.entries);
    AcceptedNode(h, ids, id, s1, from, req, s'.commit);
  }

  lemma ConfirmationOk(h: History, ids: set<NodeId>, id: NodeId, to: NodeId, term: Term, k: nat)
    requires id in ids && to in ids
    ensures var resp := AppendEntriesResponse(term, Some(k)); var h' := RecordAcks(h, id, resp);
            h' == h.(acks := h.acks + AcksUpTo(id, term, k)) && PacketOk(h', ids, Packet(id, to, AppendResp(resp)))
  {
    assert Ack(id, term, k) in AcksUpTo(id, term, k);
  }

  /** Sending a confirmation of what the node's log holds. */
  lemma ConfirmKeepsCore(c: State, id: NodeId, s: NodeState, to: NodeId, k: nat, resp: AppendEntriesResponse)
    requires Core(c) && id in c.nodes && to in c.nodes && NodeOk(c.hist, Ids(c), id, s)
    requires AckOk(c.hist, Ack(id, s.term, k)) && Prefix(c.hist, s.term, k) <= s.log
    requires resp == AppendEntriesResponse(s.term, Some(k))
    ensures CoreKept(c, Update(c, id, s, {Packet(id, to, AppendResp(resp))}, RecordAcks(c.hist, id, resp)))
  {
    hide Core, CoreKept, HistOk, NodeOk, PacketOk;
    CoreNode(c, id);
    ConfirmationOk(c.hist, Ids(c), id, to, s.term, k);
    HistOkWithAcks(c.hist, Ids(c), id, s, k);
    NodeOkWithAcks(c.hist, Ids(c), id, s, k);
    CoreAfter(c, id, s, {Packet(id, to, AppendResp(resp))}, RecordAcks(c.hist, id, resp));
  }

  lemma AcceptedKeepsCore(c: State, from: NodeId, id: NodeId, req: AppendEntriesRequest)
    requires Core(c) && id in c.nodes && from in c.nodes && AppendReqOk(c.hist, from, req)
    requires Accepts(SeeTerm(c.nodes[id], req.leaderTerm), req)
    ensures CoreKept(c, DoAppendReq(c, from, id, req))
  {
    hide Core, CoreKept, HistOk, NodeOk;
    var s := c.nodes[id];
    var (s', resp) := HandleAppendReq(s, req);
    CoreNode(c, id);
    NodeSeesTerm(c.hist, Ids(c), id, s, req.leaderTerm);
    AcceptedReply(c.hist, Ids(c), id, s, from, req);
    ConfirmKeepsCore(c, id, s', from, req.prevLogIndex + |req.entries|, resp);
  }

  /** A reply that confirms or grants nothing. */
  lemma RefusalKeepsCore(c: State, id: NodeId, s: NodeState, reply: Packet)
    requires Core(c) && id in c.nodes && NodeOk(c.hist, Ids(c), id, s)
    requires reply.from == id && reply.to in c.nodes
    requires || (reply.body.AppendResp? && reply.body.appendResp.matchedUntil.None?)
             || (reply.body.VoteResp? && !reply.body.voteResp.voteGranted)
    ensures CoreKept(c, Update(c, id, s, {reply}, c.hist))
  {
    hide Core, CoreKept, NodeOk;
    CoreAfterQuiet(c, id, s, {reply});
  }

  lemma AppendReqKeepsCore(c: State, from: NodeId, id: NodeId, req: AppendEntriesRequest)
    requires Core(c) && id in c.nodes && from in c.nodes && AppendReqOk(c.hist, from, req)
    ensures CoreKept(c, DoAppendReq(c, from, id, req))
  {
    hide Core, CoreKept, HistOk, NodeOk;
    var s1 := SeeTerm(c.nodes[id], req.leaderTerm);
    if Accepts(s1, req) {
      AcceptedKeepsCore(c, from, id, req);
    } else {
      CoreNode(c, id);
      NodeSeesTerm(c.hist, Ids(c), id, c.nodes[id], req.leaderTerm);
      RefusalKeepsCore(c, id, s1, Packet(id, from, AppendResp(AppendEntriesResponse(s1.term, None))));
    }
  }
}
