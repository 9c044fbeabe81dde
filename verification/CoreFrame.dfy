/** What is true of a node, packet, election, ballot or confirmation stays true while the
    history grows by what some other node did. */
module CoreFrame {
  import opened Messages
  import opened NodeSpec
  import opened Cluster
  import opened CoreInvariant

  lemma CoreNode(c: State, id: NodeId)
    requires Core(c) && id in c.nodes
    ensures HistOk(c.hist, Ids(c)) && NodeOk(c.hist, Ids(c), id, c.nodes[id])
  {
  }

  lemma CorePacket(c: State, p: Packet)
    requires Core(c) && p in c.net
    ensures PacketOk(c.hist, Ids(c), p)
  {
  }

  lemma LogOkGrows(h: History, h': History, log: Log)
    requires Grows(h, h') && LogOk(h, log)
    ensures LogOk(h', log)
  {
    forall k | 1 <= k < |log| ensures EntryOk(h', log, k) {
      assert EntryOk(h, log, k);
      var t := log[k].leaderTerm;
      assert ElectionGrows(h.elections[t], h'.elections[t]);
    }
  }

  lemma AckOkGrows(h: History, h': History, a: Ack)
    requires Grows(h, h') && AckOk(h, a)
    ensures AckOk(h', a)
    ensures Prefix(h', a.term, a.index) == Prefix(h, a.term, a.index)
  {
    assert ElectionGrows(h.elections[a.term], h'.elections[a.term]);
  }

  lemma HoldsGrows(h: History, h': History, log: Log, a: Ack, upTo: int, upTo': int)
    requires Grows(h, h') && AckOk(h, a) && upTo <= upTo'
    requires Holds(h, log, a.term, a.index, upTo)
    ensures AckOk(h', a) && Holds(h', log, a.term, a.index, upTo')
  {
    AckOkGrows(h, h', a);
    if !(Prefix(h, a.term, a.index) <= log) {
      var u :| u in h.elections && a.term < u <= upTo && !(Prefix(h, a.term, a.index) <= h.elections[u].start);
      assert ElectionGrows(h.elections[u], h'.elections[u]);
      assert Superseded(h', a.term, a.index, upTo');
    }
  }

  lemma VotedForGrows(h: History, h': History, voter: NodeId, t: Term, candidate: NodeId)
    requires Grows(h, h') && VotedFor(h, voter, t, candidate)
    ensures VotedFor(h', voter, t, candidate)
  {
  }

  lemma ElectionOkGrows(h: History, h': History, ids: set<NodeId>, t: Term)
    requires Grows(h, h') && t in h.elections && ElectionOk(h, ids, t)
    requires h'.elections[t].log == h.elections[t].log
    ensures ElectionOk(h', ids, t)
  {
    assert ElectionGrows(h.elections[t], h'.elections[t]);
    LogOkGrows(h, h', h.elections[t].log);
    forall v | v in h.elections[t].voters ensures VotedFor(h', v, t, h.elections[t].leader) {
      VotedForGrows(h, h', v, t, h.elections[t].leader);
    }
  }

  lemma BallotOkGrows(h: History, h': History, key: VoteKey)
    requires Grows(h, h') && key in h.ballots && BallotOk(h, key)
    ensures BallotOk(h', key)
  {
    LogOkGrows(h, h', h.ballots[key].log);
  }

  lemma BallotKeepsAckGrows(h: History, h': History, key: VoteKey, a: Ack)
    requires Grows(h, h') && key in h.ballots && AckOk(h, a) && BallotKeepsAck(h, key, a)
    ensures BallotKeepsAck(h', key, a)
  {
    AckOkGrows(h, h', a);
    if key.voter == a.node && a.term < key.term && Decisive(h', key) {
      assert key.term in h.elections ==> ElectionGrows(h.elections[key.term], h'.elections[key.term]);
      assert Decisive(h, key);
      HoldsGrows(h, h', h.ballots[key].log, a, key.term - 1, key.term - 1);
    }
  }

  lemma RoleOkGrows(h: History, h': History, ids: set<NodeId>, actor: NodeId, id: NodeId, s: NodeState)
    requires Grows(h, h') && OnlyBy(h, h', actor) && id != actor
    requires RoleOk(h, ids, id, s) && LeadsIfElected(h, id, s)
    ensures RoleOk(h', ids, id, s) && LeadsIfElected(h', id, s)
  {
    var key := VoteKey(id, s.term);
    assert key in h'.ballots ==> key in h.ballots;
    assert s.term in h.elections ==> ElectionGrows(h.elections[s.term], h'.elections[s.term]);
    if s.role.Candidate? {
      forall v | v in s.role.votes ensures VotedFor(h', v, s.term, id) {
        VotedForGrows(h, h', v, s.term, id);
      }
    }
  }

  lemma AcksKeptGrows(h: History, h': History, actor: NodeId, id: NodeId, s: NodeState)
    requires Grows(h, h') && OnlyBy(h, h', actor) && id != actor && AcksKept(h, id, s)
    ensures AcksKept(h', id, s)
  {
    forall a | a in h'.acks && a.node == id ensures AckKept(h', s, a) {
      assert AckKept(h, s, a);
      HoldsGrows(h, h', s.log, a, s.term, s.term);
    }
  }

  lemma NodeOkGrows(h: History, h': History, ids: set<NodeId>, actor: NodeId, id: NodeId, s: NodeState)
    requires Grows(h, h') && OnlyBy(h, h', actor) && id != actor && NodeOk(h, ids, id, s)
    ensures NodeOk(h', ids, id, s)
  {
    LogOkGrows(h, h', s.log);
    RoleOkGrows(h, h', ids, actor, id, s);
    AcksKeptGrows(h, h', actor, id, s);
  }

  lemma AppendReqOkGrows(h: History, h': History, from: NodeId, req: AppendEntriesRequest)
    requires Grows(h, h') && AppendReqOk(h, from, req)
    ensures AppendReqOk(h', from, req)
  {
    assert ElectionGrows(h.elections[req.leaderTerm], h'.elections[req.leaderTerm]);
  }

  lemma PacketOkGrows(h: History, h': History, ids: set<NodeId>, p: Packet)
    requires Grows(h, h') && PacketOk(h, ids, p)
    ensures PacketOk(h', ids, p)
  {
    match p.body
    case AppendReq(req) => AppendReqOkGrows(h, h', p.from, req);
    case VoteReq(req) =>
    case AppendResp(resp) =>
    case VoteResp(resp) =>
  }

  /** One step keeps the invariant if it does so for the node that acts, for what it sends
      and for what it adds to the history. */
  lemma CoreAfter(c: State, id: NodeId, s: NodeState, out: set<Packet>, h': History)
    requires Core(c) && id in c.nodes
    requires Grows(c.hist, h') && OnlyBy(c.hist, h', id)
    requires HistOk(h', Ids(c))
    requires NodeOk(h', Ids(c), id, s)
    requires forall p | p in out :: PacketOk(h', Ids(c), p)
    ensures CoreKept(c, Update(c, id, s, out, h'))
  {
    var c' := Update(c, id, s, out, h');
    assert Ids(c') == Ids(c);
    forall j | j in c'.nodes ensures NodeOk(h', Ids(c'), j, c'.nodes[j]) {
      if j != id {
        NodeOkGrows(c.hist, h', Ids(c), id, j, c.nodes[j]);
      }
    }
    forall p | p in c'.net ensures PacketOk(h', Ids(c'), p) {
      if p !in out {
        PacketOkGrows(c.hist, h', Ids(c), p);
      }
    }
  }

  lemma GrowsReflexive(h: History, id: NodeId)
    ensures Grows(h, h) && OnlyBy(h, h, id)
  {
  }

  /** A step that leaves the history alone. */
  lemma CoreAfterQuiet(c: State, id: NodeId, s: NodeState, out: set<Packet>)
    requires Core(c) && id in c.nodes
    requires NodeOk(c.hist, Ids(c), id, s)
    requires forall p | p in out :: PacketOk(c.hist, Ids(c), p)
    ensures CoreKept(c, Update(c, id, s, out, c.hist))
  {
    GrowsReflexive(c.hist, id);
    CoreAfter(c, id, s, out, c.hist);
  }
}
