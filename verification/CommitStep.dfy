/** Every action that obeys G1, G2 and G4 keeps what nodes and requests say is committed
    within what leaders committed. */
module CommitStep {
  import opened Messages
  import opened NodeSpec
  import opened Cluster
  import opened CoreInvariant
  import opened CoreFrame
  import opened AppendEntriesStep
  import opened CoreStep
  import opened LeaderInvariant
  import opened CommitInvariant

  ghost predicate NodeCommitOk(h: History, s: NodeState) {
    s.commit < |s.log| && CommittedBy(h, s.term, s.log[..s.commit + 1])
  }

  ghost predicate RequestCommitOk(h: History, req: AppendEntriesRequest) {
    && req.leaderTerm in h.elections
    && var log := h.elections[req.leaderTerm].log;
    && req.leaderCommit <= req.prevLogIndex + |req.entries| < |log|
    && CommittedBy(h, req.leaderTerm, log[..req.leaderCommit + 1])
  }

  ghost predicate PacketCommitOk(h: History, p: Packet) {
    p.body.AppendReq? ==> RequestCommitOk(h, p.body.appendReq)
  }

  ghost predicate Committed(c: State) {
    && RecordsOk(c.hist, Ids(c))
    && (forall id | id in c.nodes :: NodeCommitOk(c.hist, c.nodes[id]))
    && (forall p | p in c.net :: PacketCommitOk(c.hist, p))
  }

  // What is committed stays committed

  lemma RecordOkGrows(h: History, h': History, ids: set<NodeId>, r: CommitRecord)
    requires Grows(h, h') && RecordOk(h, ids, r)
    ensures RecordOk(h', ids, r) && Prefix(h', r.term, r.index) == Prefix(h, r.term, r.index)
  {
    assert ElectionGrows(h.elections[r.term], h'.elections[r.term]);
  }

  lemma CommittedByGrows(h: History, h': History, ids: set<NodeId>, t: Term, t': Term, p: Log)
    requires Grows(h, h') && RecordsOk(h, ids) && CommittedBy(h, t, p) && t <= t'
    ensures CommittedBy(h', t', p)
  {
    if !(p <= [SENTINEL]) {
      var r :| r in h.commits && Covers(h, r, t, p);
      RecordOkGrows(h, h', ids, r);
      assert Covers(h', r, t', p);
    }
  }

  lemma RequestCommitOkGrows(h: History, h': History, ids: set<NodeId>, req: AppendEntriesRequest)
    requires Grows(h, h') && RecordsOk(h, ids) && RequestCommitOk(h, req)
    ensures RequestCommitOk(h', req)
  {
    var t := req.leaderTerm;
    assert ElectionGrows(h.elections[t], h'.elections[t]);
    var p := h.elections[t].log[..req.leaderCommit + 1];
    CommittedByGrows(h, h', ids, t, t, p);
    assert h'.elections[t].log[..req.leaderCommit + 1] == p;
  }

  lemma CommittedAfter(c: State, id: NodeId, s: NodeState, out: set<Packet>, h': History)
    requires Committed(c) && id in c.nodes && Grows(c.hist, h') && RecordsOk(h', Ids(c))
    requires NodeCommitOk(h', s)
    requires forall p | p in out :: PacketCommitOk(h', p)
    ensures Committed(Update(c, id, s, out, h'))
  {
    hide RecordOk;
    var c' := Update(c, id, s, out, h');
    assert Ids(c') == Ids(c);
    forall j | j in c'.nodes ensures NodeCommitOk(h', c'.nodes[j]) {
      if j != id {
        var s := c.nodes[j];
        CommittedByGrows(c.hist, h', Ids(c), s.term, s.term, s.log[..s.commit + 1]);
      }
    }
    forall p | p in c'.net ensures PacketCommitOk(h', p) {
      if p !in out {
        assert PacketCommitOk(c.hist, p);
        if p.body.AppendReq? {
          RequestCommitOkGrows(c.hist, h', Ids(c), p.body.appendReq);
        }
      }
    }
  }

  lemma RecordsOkGrow(h: History, h': History, ids: set<NodeId>)
    requires Grows(h, h') && h'.commits == h.commits && RecordsOk(h, ids)
    ensures RecordsOk(h', ids)
  {
    forall r | r in h'.commits ensures RecordOk(h', ids, r) {
      RecordOkGrows(h, h', ids, r);
    }
  }

  /** A step that records no commitment and only extends the log. */
  lemma CommittedAfterQuiet(c: State, id: NodeId, s: NodeState, out: set<Packet>, h': History)
    requires Committed(c) && id in c.nodes && Grows(c.hist, h') && h'.commits == c.hist.commits
    requires c.nodes[id].term <= s.term && c.nodes[id].log <= s.log && c.nodes[id].commit == s.commit
    requires forall p | p in out :: PacketCommitOk(h', p)
    ensures Committed(Update(c, id, s, out, h'))
  {
    hide RecordOk;
    var was := c.nodes[id];
    assert NodeCommitOk(c.hist, was);
    RecordsOkGrow(c.hist, h', Ids(c));
    CommittedByGrows(c.hist, h', Ids(c), was.term, s.term, was.log[..was.commit + 1]);
    assert s.log[..s.commit + 1] == was.log[..was.commit + 1];
    CommittedAfter(c, id, s, out, h');
  }

  // AppendEntries requests

  /** An accepted request never loses or lowers what the node knows to be committed. */
  lemma AcceptedCommit(h: History, ids: set<NodeId>, id: NodeId, s: NodeState, from: NodeId, req: AppendEntriesRequest)
    requires HistOk(h, ids) && RecordsOk(h, ids)
    requires Meets(h, s, from, req) && NodeCommitOk(h, s) && RequestCommitOk(h, req)
    ensures var s' := HandleAppendReq(s, req).0;
            NodeCommitOk(h, s') && s.log[..s.commit + 1] <= s'.log && s.commit <= s'.commit
  {
    hide HistOk, RecordOk;
    var g := h.elections[s.term].log;
    var p := s.log[..s.commit + 1];
    var s' := HandleAppendReq(s, req).0;
    LeaderExtendsCommitted(h, ids, s.term, p, s.term);
    MergedKeeps(s.log, g, req.prevLogIndex, req.entries, p);
    MergedCases(s.log, g, req.prevLogIndex, req.entries);
    if req.leaderCommit > s.commit {
      assert s'.log[..s'.commit + 1] == g[..req.leaderCommit + 1];
    } else {
      assert s'.log[..s'.commit + 1] == p;
    }
  }

  lemma SeeTermKeepsCommit(h: History, h': History, ids: set<NodeId>, s: NodeState, term: Term)
    requires Grows(h, h') && RecordsOk(h, ids) && NodeCommitOk(h, s)
    ensures NodeCommitOk(h', SeeTerm(s, term))
  {
    hide RecordOk;
    CommittedByGrows(h, h', ids, s.term, SeeTerm(s, term).term, s.log[..s.commit + 1]);
  }

  lemma SeeTermTwice(s: NodeState, req: AppendEntriesRequest)
    ensures HandleAppendReq(SeeTerm(s, req.leaderTerm), req) == HandleAppendReq(s, req)
  {
  }

  /** A node's committed entries survive any request. */
  lemma RequestKeepsCommit(c: State, p: Packet)
    requires Core(c) && Committed(c) && p in c.net && p.to in c.nodes && p.body.AppendReq?
    ensures var s, s' := c.nodes[p.to], HandleAppendReq(c.nodes[p.to], p.body.appendReq).0;
            NodeCommitOk(c.hist, s') && s.log[..s.commit + 1] <= s'.log && s.commit <= s'.commit
  {
    hide HistOk, NodeOk, RecordsOk, RequestCommitOk, PacketOk;
    var s, req := c.nodes[p.to], p.body.appendReq;
    var s1 := SeeTerm(s, req.leaderTerm);
    assert NodeCommitOk(c.hist, s) && PacketCommitOk(c.hist, p);
    CorePacket(c, p);
    CoreNode(c, p.to);
    NodeSeesTerm(c.hist, Ids(c), p.to, s, req.leaderTerm);
    GrowsReflexive(c.hist, p.to);
    SeeTermKeepsCommit(c.hist, c.hist, Ids(c), s, req.leaderTerm);
    if Accepts(s1, req) {
      RequestOf(c.hist, Ids(c), p);
      AcceptedMeets(c.hist, Ids(c), p.to, s1, p.from, req);
      AcceptedCommit(c.hist, Ids(c), p.to, s1, p.from, req);
      SeeTermTwice(s, req);
    }
  }

  lemma RequestOf(h: History, ids: set<NodeId>, p: Packet)
    requires PacketOk(h, ids, p) && p.body.AppendReq?
    ensures AppendReqOk(h, p.from, p.body.appendReq)
  {
  }

  lemma AppendReqKeepsCommitted(c: State, p: Packet)
    requires Core(c) && Committed(c) && p in c.net && p.to in c.nodes && p.body.AppendReq?
    requires CoreKept(c, DoAppendReq(c, p.from, p.to, p.body.appendReq))
    ensures Committed(DoAppendReq(c, p.from, p.to, p.body.appendReq))
  {
    hide Core, Committed, RecordOk, RecordsOk;
    var id, req := p.to, p.body.appendReq;
    var (s', resp) := HandleAppendReq(c.nodes[id], req);
    var h' := RecordAcks(c.hist, id, resp);
    RequestKeepsCommit(c, p);
    CommittedParts(c);
    RecordsOkGrow(c.hist, h', Ids(c));
    SeeTermKeepsCommit(c.hist, h', Ids(c), s', s'.term);
    CommittedAfter(c, id, s', {Packet(id, p.from, AppendResp(resp))}, h');
  }

  lemma CommittedParts(c: State)
    requires Committed(c)
    ensures RecordsOk(c.hist, Ids(c)) && forall id | id in c.nodes :: NodeCommitOk(c.hist, c.nodes[id])
  {
  }

  // What leaders send

  /** A leader's request reaches the end of its log, so at least its commit index. */
  lemma AppendRequestsCommitOk(h: History, ids: set<NodeId>, id: NodeId, s: NodeState)
    requires NodeOk(h, ids, id, s) && id in ids && NodeCommitOk(h, s)
    requires forall to | to in ids :: SendDefined(s, to)
    ensures forall p | p in AppendRequests(s, id, ids) :: PacketCommitOk(h, p)
  {
    LeaderOf(h, ids, id, s);
    hide NodeOk;
    forall p | p in AppendRequests(s, id, ids) ensures PacketCommitOk(h, p) {
      assert SendDefined(s, p.to);
    }
  }

  lemma LeaderOf(h: History, ids: set<NodeId>, id: NodeId, s: NodeState)
    requires NodeOk(h, ids, id, s)
    ensures s.role.Leader? ==> s.term in h.elections && h.elections[s.term].log == s.log
  {
  }

  lemma ReplicateKeepsCommitted(c: State, id: NodeId)
    requires Core(c) && Committed(c) && id in c.nodes && forall to | to in Ids(c) :: SendDefined(c.nodes[id], to)
    ensures Committed(Update(c, id, c.nodes[id], AppendRequests(c.nodes[id], id, Ids(c)), c.hist))
  {
    hide Core, NodeOk, RecordsOk;
    CoreNode(c, id);
    assert NodeCommitOk(c.hist, c.nodes[id]);
    AppendRequestsCommitOk(c.hist, Ids(c), id, c.nodes[id]);
    GrowsReflexive(c.hist, id);
    CommittedAfterQuiet(c, id, c.nodes[id], AppendRequests(c.nodes[id], id, Ids(c)), c.hist);
  }

  lemma ElectionKeepsCommitted(c: State, id: NodeId, s: NodeState, h': History)
    requires Committed(c) && id in c.nodes && Grows(c.hist, h') && h'.commits == c.hist.commits
    requires c.nodes[id].term <= s.term && c.nodes[id].log == s.log && c.nodes[id].commit == s.commit
    requires NodeOk(h', Ids(c), id, s) && forall to | to in Ids(c) :: SendDefined(s, to)
    ensures Committed(Update(c, id, s, AppendRequests(s, id, Ids(c)), h'))
  {
    hide NodeOk, RecordsOk, Committed, PacketCommitOk;
    CommittedParts(c);
    SeeTermKeepsCommit(c.hist, h', Ids(c), c.nodes[id], s.term);
    AppendRequestsCommitOk(h', Ids(c), id, s);
    CommittedAfterQuiet(c, id, s, AppendRequests(s, id, Ids(c)), h');
  }

  lemma VoteRespKeepsCommitted(c: State, from: NodeId, id: NodeId, resp: RequestVoteResponse)
    requires Core(c) && Committed(c) && id in c.nodes && c.nodes[id].log != []
    requires CoreKept(c, DoVoteResp(c, from, id, resp))
    ensures Committed(DoVoteResp(c, from, id, resp))
  {
    hide Core, NodeOk, RecordsOk, Committed;
    var c' := DoVoteResp(c, from, id, resp);
    if Wins(SeeTerm(c.nodes[id], resp.currentTerm), resp, from, |Ids(c)|) {
      CoreNode(c', id);
      assert Ids(c') == Ids(c);
      ElectionKeepsCommitted(c, id, c'.nodes[id], c'.hist);
    } else {
      CommittedAfterQuiet(c, id, c'.nodes[id], {}, c.hist);
    }
  }

  // The commit rule

  /** The nodes counted by the commit rule form a quorum that confirmed the new index. */
  lemma NewRecordOk(h: History, ids: set<NodeId>, id: NodeId, s: NodeState, k: nat)
    requires HistOk(h, ids) && NodeOk(h, ids, id, s) && AcksClosed(h) && MatchesOk(h, s)
    requires s.role.Leader? && 0 < k < |s.log| && s.term <= s.log[k].leaderTerm + 1
    requires IsMajority(|Holders(s.role.matchIndex, k)|, |ids|)
    ensures RecordOk(h, ids, CommitRecord(s.term, k, Holders(s.role.matchIndex, k)))
  {
    forall v | v in Holders(s.role.matchIndex, k) ensures Ack(v, s.term, k) in h.acks {
      assert Confirmed(h, v, s.term, s.role.matchIndex[v]);
      assert Ack(v, s.term, s.role.matchIndex[v]) in h.acks;
    }
  }

  lemma RecordsOkWith(h: History, h': History, ids: set<NodeId>, r: CommitRecord)
    requires RecordsOk(h, ids) && RecordOk(h, ids, r) && h' == h.(commits := h.commits + {r})
    ensures RecordsOk(h', ids) && Grows(h, h')
  {
    assert Grows(h, h');
    forall q | q in h'.commits ensures RecordOk(h', ids, q) {
      RecordOkGrows(h, h', ids, q);
    }
  }

  lemma NewCommitOk(h: History, h': History, ids: set<NodeId>, id: NodeId, s: NodeState, r: CommitRecord)
    requires NodeOk(h, ids, id, s) && s.role.Leader? && r.term == s.term && r.index < |s.log|
    requires h' == h.(commits := h.commits + {r})
    ensures NodeCommitOk(h', s.(commit := r.index))
  {
    LeaderOf(h, ids, id, s);
    assert Covers(h', r, s.term, s.log[..r.index + 1]);
  }

  lemma CommitKeepsCommitted(c: State, id: NodeId)
    requires Core(c) && Matched(c) && Committed(c) && Enabled(c, Commit(id)) && G4(c, Commit(id))
    ensures Committed(DoCommit(c, id))
  {
    hide Core, Committed, NodeOk, HistOk, RecordsOk, RecordOk, HighestHeld, LogsNonempty;
    var s := c.nodes[id];
    var c' := DoCommit(c, id);
    var k := c'.nodes[id].commit;
    CoreNode(c, id);
    CommittedParts(c);
    if k == s.commit {
      GrowsReflexive(c.hist, id);
      CommittedAfterQuiet(c, id, c'.nodes[id], {}, c.hist);
    } else {
      var r := CommitRecord(s.term, k, Holders(s.role.matchIndex, k));
      NewRecordOk(c.hist, Ids(c), id, s, k);
      RecordsOkWith(c.hist, c'.hist, Ids(c), r);
      NewCommitOk(c.hist, c'.hist, Ids(c), id, s, r);
      CommittedAfter(c, id, c'.nodes[id], {}, c'.hist);
    }
  }

  // Every action

  lemma DeliverKeepsCommitted(c: State, p: Packet)
    requires Core(c) && Committed(c) && Enabled(c, Deliver(p)) && CoreKept(c, DeliverTo(c, p))
    ensures Committed(DeliverTo(c, p))
  {
    hide Core, Committed, LogsNonempty;
    assert c.nodes[p.to].log != [] by { CoreNode(c, p.to); }
    var c' := DeliverTo(c, p);
    match p.body
    case AppendReq(req) => AppendReqKeepsCommitted(c, p);
    case VoteReq(req) =>
      var (s', resp) := HandleVoteReq(c.nodes[p.to], req);
      CommittedAfterQuiet(c, p.to, s', {Packet(p.to, p.from, VoteResp(resp))}, c'.hist);
    case AppendResp(resp) => CommittedAfterQuiet(c, p.to, c'.nodes[p.to], {}, c.hist);
    case VoteResp(resp) => VoteRespKeepsCommitted(c, p.from, p.to, resp);
  }

  lemma StepKeepsCommitted(c: State, a: Action)
    requires Core(c) && Matched(c) && Committed(c) && Enabled(c, a) && G1(c, a) && G4(c, a)
    ensures Committed(Next(c, a))
  {
    hide Core, Matched, Committed, HighestHeld;
    StepKeepsCore(c, a);
    var c' := Next(c, a);
    match a
    case Deliver(p) => DeliverKeepsCommitted(c, p);
    case Timeout(id) =>
      var s' := BecomeCandidate(c.nodes[id], id);
      CommittedAfterQuiet(c, id, s', VoteRequests(s', id, Ids(c)), c'.hist);
    case Replicate(id) => ReplicateKeepsCommitted(c, id);
    case Commit(id) => CommitKeepsCommitted(c, id);
    case Append(id, commands) => CommittedAfterQuiet(c, id, c'.nodes[id], {}, c'.hist);
  }
}
