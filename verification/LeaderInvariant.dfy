/** What a leader believes about its followers. A match index is backed by a confirmation
    of the leader's own term if the run obeys G1 and G2. A next index stays inside the log
    if it also obeys G3. */
module LeaderInvariant {
  import opened Messages
  import opened NodeSpec
  import opened Cluster
  import opened CoreInvariant
  import opened CoreFrame
  import opened AppendEntriesStep
  import opened CoreStep
  import opened LeaderStep

  predicate Confirmed(h: History, id: NodeId, term: Term, index: nat) {
    index > 0 ==> Ack(id, term, index) in h.acks
  }

  ghost predicate MatchesOk(h: History, s: NodeState) {
    s.role.Leader? ==> forall f | f in s.role.matchIndex :: Confirmed(h, f, s.term, s.role.matchIndex[f])
  }

  ghost predicate AcksClosed(h: History) {
    forall a, i: nat | a in h.acks && i <= a.index :: Ack(a.node, a.term, i) in h.acks
  }

  ghost predicate Matched(c: State) {
    AcksClosed(c.hist) && forall id | id in c.nodes :: MatchesOk(c.hist, c.nodes[id])
  }

  lemma MatchesGrow(h: History, h': History, s: NodeState)
    requires MatchesOk(h, s) && h.acks <= h'.acks
    ensures MatchesOk(h', s)
  {
    if s.role.Leader? {
      forall f | f in s.role.matchIndex ensures Confirmed(h', f, s.term, s.role.matchIndex[f]) {
        assert Confirmed(h, f, s.term, s.role.matchIndex[f]);
      }
    }
  }

  /** A step of node `id` that keeps or adds confirmations. */
  lemma MatchedAfter(c: State, id: NodeId, s: NodeState, out: set<Packet>, h': History)
    requires Matched(c) && id in c.nodes && c.hist.acks <= h'.acks && AcksClosed(h') && MatchesOk(h', s)
    ensures Matched(Update(c, id, s, out, h'))
  {
    var c' := Update(c, id, s, out, h');
    forall j | j in c'.nodes ensures MatchesOk(h', c'.nodes[j]) {
      if j != id {
        MatchesGrow(c.hist, h', c.nodes[j]);
      }
    }
  }

  lemma ReplyKeepsMatches(h: History, ids: set<NodeId>, s: NodeState, p: Packet)
    requires p.body.AppendResp? && PacketOk(h, ids, p) && MatchesOk(h, s)
    requires var resp := p.body.appendResp;
             s.role.Leader? && resp.matchedUntil.Some? && resp.currentTerm < s.term ==>
               resp.matchedUntil.value <= Lookup(s.role.matchIndex, p.from)
    ensures MatchesOk(h, HandleAppendResp(s, p.body.appendResp, p.from))
  {
    var resp := p.body.appendResp;
    var s1 := SeeTerm(s, resp.currentTerm);
    var s' := HandleAppendResp(s, resp, p.from);
    if s1.role.Leader? {
      forall f | f in s'.role.matchIndex ensures Confirmed(h, f, s'.term, s'.role.matchIndex[f]) {
        assert f in s1.role.matchIndex ==> Confirmed(h, f, s1.term, s1.role.matchIndex[f]);
      }
    }
  }

  lemma AcksStayClosed(h: History, node: NodeId, resp: AppendEntriesResponse)
    requires AcksClosed(h)
    ensures AcksClosed(RecordAcks(h, node, resp))
  {
    var h' := RecordAcks(h, node, resp);
    forall a, i: nat | a in h'.acks && i <= a.index ensures Ack(a.node, a.term, i) in h'.acks {
      if a in h.acks {
        assert Ack(a.node, a.term, i) in h.acks;
      }
    }
  }

  /** Accepting requests never touches a leader's match indices. */
  lemma AppendReqKeepsMatched(c: State, from: NodeId, id: NodeId, req: AppendEntriesRequest)
    requires Matched(c) && id in c.nodes
    ensures Matched(DoAppendReq(c, from, id, req))
  {
    var (s', resp) := HandleAppendReq(c.nodes[id], req);
    AcksStayClosed(c.hist, id, resp);
    MatchesGrow(c.hist, RecordAcks(c.hist, id, resp), c.nodes[id]);
    MatchedAfter(c, id, s', {Packet(id, from, AppendResp(resp))}, RecordAcks(c.hist, id, resp));
  }

  lemma DeliverKeepsMatched(c: State, p: Packet)
    requires Core(c) && Matched(c) && p in c.net && Enabled(c, Deliver(p)) && G2(c, Deliver(p))
    ensures Matched(DeliverTo(c, p))
  {
    hide Core, AcksClosed, PacketOk, LogsNonempty;
    CorePacket(c, p);
    var c' := DeliverTo(c, p);
    match p.body
    case AppendReq(req) =>
      AppendReqKeepsMatched(c, p.from, p.to, req);
    case AppendResp(resp) =>
      ReplyKeepsMatches(c.hist, Ids(c), c.nodes[p.to], p);
      MatchedAfter(c, p.to, c'.nodes[p.to], {}, c.hist);
    case VoteReq(req) =>
      assert c'.hist.acks == c.hist.acks;
      AcksSame(c.hist, c'.hist);
      MatchedAfter(c, p.to, c'.nodes[p.to], c'.net, c'.hist);
      assert c'.nodes == c.nodes[p.to := c'.nodes[p.to]];
    case VoteResp(resp) =>
      assert c'.hist.acks == c.hist.acks;
      AcksSame(c.hist, c'.hist);
      MatchedAfter(c, p.to, c'.nodes[p.to], c'.net, c'.hist);
      assert c'.nodes == c.nodes[p.to := c'.nodes[p.to]];
  }

  lemma AcksSame(h: History, h': History)
    requires AcksClosed(h) && h'.acks == h.acks
    ensures AcksClosed(h')
  {
  }

  lemma StepKeepsMatched(c: State, a: Action)
    requires Core(c) && Matched(c) && Enabled(c, a) && G2(c, a)
    ensures Matched(Next(c, a))
  {
    hide Core, LogsNonempty, HighestHeld;
    var c' := Next(c, a);
    if a.Deliver? {
      DeliverKeepsMatched(c, a.packet);
    } else {
      assert c'.hist.acks == c.hist.acks;
      AcksSame(c.hist, c'.hist);
      MatchesGrow(c.hist, c'.hist, c.nodes[a.id]);
      MatchedAfter(c, a.id, c'.nodes[a.id], c'.net, c'.hist);
      assert c'.nodes == c.nodes[a.id := c'.nodes[a.id]];
    }
  }

  // Next indices

  predicate NextsOk(s: NodeState) {
    s.role.Leader? ==> forall f | f in s.role.nextIndex :: 1 <= s.role.nextIndex[f] <= |s.log|
  }

  ghost predicate NextsInRange(c: State) {
    forall id | id in c.nodes :: NextsOk(c.nodes[id])
  }

  /** A confirmed index lies inside the leader's log. */
  lemma MatchInLog(c: State, id: NodeId, f: NodeId)
    requires Core(c) && Matched(c) && id in c.nodes && c.nodes[id].role.Leader?
    requires f in c.nodes[id].role.matchIndex
    ensures c.nodes[id].role.matchIndex[f] < |c.nodes[id].log|
  {
    var s := c.nodes[id];
    var k := s.role.matchIndex[f];
    assert MatchesOk(c.hist, s);
    assert NodeOk(c.hist, Ids(c), id, s);
    assert Confirmed(c.hist, f, s.term, k);
    if k > 0 {
      assert AckOk(c.hist, Ack(f, s.term, k));
    }
  }

  lemma NextsAfter(c: State, c': State, id: NodeId)
    requires NextsInRange(c) && id in c.nodes && id in c'.nodes && NextsOk(c'.nodes[id])
    requires c'.nodes == c.nodes[id := c'.nodes[id]]
    ensures NextsInRange(c')
  {
  }

  /** The match index the reply leaves behind is inside the leader's log. */
  lemma ReplyKeepsNexts(c: State, c': State, p: Packet)
    requires p.body.AppendResp? && p.to in c.nodes && p.from in c.nodes
    requires c' == Update(c, p.to, HandleAppendResp(c.nodes[p.to], p.body.appendResp, p.from), {}, c.hist)
    requires Core(c') && Matched(c') && NextsOk(c.nodes[p.to])
    requires c.nodes[p.to].role.Leader? ==> p.from in c.nodes[p.to].role.nextIndex
    requires var resp := p.body.appendResp; var s := c.nodes[p.to];
             s.role.Leader? && resp.matchedUntil.None? && resp.currentTerm <= s.term ==>
               Lookup(s.role.nextIndex, p.from) > 1
    ensures NextsOk(c'.nodes[p.to])
  {
    hide Core, Matched;
    var s := c.nodes[p.to];
    var s' := c'.nodes[p.to];
    if s'.role.Leader? && p.body.appendResp.matchedUntil.Some? {
      MatchInLog(c', p.to, p.from);
    }
  }

  lemma StepKeepsNexts(c: State, a: Action)
    requires Core(c) && Matched(c) && NextsInRange(c) && Enabled(c, a) && G1(c, a) && G2(c, a) && G3(c, a)
    ensures NextsInRange(Next(c, a))
  {
    hide Core, Matched, NodeOk, PacketOk, LogsNonempty, HighestHeld;
    var c' := Next(c, a);
    StepKeepsCore(c, a);
    StepKeepsMatched(c, a);
    var id := Actor(a);
    assert c'.nodes == c.nodes[id := c'.nodes[id]];
    if a.Deliver? {
      DeliverKeepsNexts(c, a.packet);
    }
    NextsAfter(c, c', id);
  }

  lemma DeliverKeepsNexts(c: State, p: Packet)
    requires Core(c) && NextsInRange(c) && Enabled(c, Deliver(p)) && G3(c, Deliver(p))
    requires Core(DeliverTo(c, p)) && Matched(DeliverTo(c, p))
    ensures NextsOk(DeliverTo(c, p).nodes[p.to])
  {
    hide Core, Matched, NodeOk, LogsNonempty;
    CorePacket(c, p);
    CoreNode(c, p.to);
    match p.body
    case AppendReq(req) => LeaderLogNeverShrinks(c, p);
    case VoteReq(req) =>
    case AppendResp(resp) =>
      if c.nodes[p.to].role.Leader? {
        LeaderKeys(c.hist, Ids(c), p.to, c.nodes[p.to]);
      }
      ReplyKeepsNexts(c, DeliverTo(c, p), p);
    case VoteResp(resp) =>
  }

  lemma MergeIntoOwnLog(h: History, ids: set<NodeId>, id: NodeId, s: NodeState, from: NodeId, req: AppendEntriesRequest)
    requires HistOk(h, ids) && NodeOk(h, ids, id, s) && s.role.Leader?
    requires AppendReqOk(h, from, req) && s.term == req.leaderTerm && Accepts(s, req)
    ensures Merged(s.log, req.prevLogIndex, req.entries) == s.log
  {
    LeaderKeys(h, ids, id, s);
    AcceptedMeets(h, ids, id, s, from, req);
    hide HistOk, NodeOk;
    MergedCases(s.log, s.log, req.prevLogIndex, req.entries);
    MergedKeeps(s.log, s.log, req.prevLogIndex, req.entries, s.log);
  }

  /** A leader that handles its own looped-back requests does not change its log. */
  lemma LeaderLogNeverShrinks(c: State, p: Packet)
    requires Core(c) && p in c.net && p.to in c.nodes && p.body.AppendReq?
    ensures var s, s' := c.nodes[p.to], HandleAppendReq(c.nodes[p.to], p.body.appendReq).0;
            s'.role.Leader? ==> s'.log == s.log && s'.role == s.role
  {
    hide Core, HistOk, NodeOk;
    var s, req := c.nodes[p.to], p.body.appendReq;
    CorePacket(c, p);
    CoreNode(c, p.to);
    if s.role.Leader? && s.term == req.leaderTerm && Accepts(s, req) {
      MergeIntoOwnLog(c.hist, Ids(c), p.to, s, p.from, req);
    }
  }
}
