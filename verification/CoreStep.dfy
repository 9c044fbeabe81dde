/** Every action that obeys G1 keeps the core invariant. */
module CoreStep {
  import opened Messages
  import opened Cluster
  import opened CoreInvariant
  import opened CoreFrame
  import opened AppendEntriesStep
  import opened VoteStep
  import opened LeaderStep

  lemma DeliverKeepsCore(c: State, p: Packet)
    requires Core(c) && p in c.net && Enabled(c, Deliver(p)) && G1(c, Deliver(p))
    ensures CoreKept(c, DeliverTo(c, p))
  {
    hide Core, CoreKept, LogsNonempty;
    CorePacket(c, p);
    assert c.nodes[p.to].log != [] by { CoreNode(c, p.to); }
    match p.body
    case AppendReq(req) => AppendReqKeepsCore(c, p.from, p.to, req);
    case VoteReq(req) => VoteReqKeepsCore(c, p.from, p.to, req);
    case AppendResp(resp) => AppendRespKeepsCore(c, p.from, p.to, resp);
    case VoteResp(resp) => VoteRespKeepsCore(c, p.from, p.to, resp);
  }

  lemma StepKeepsCore(c: State, a: Action)
    requires Core(c) && Enabled(c, a) && G1(c, a)
    ensures CoreKept(c, Next(c, a))
  {
    hide Core, CoreKept, LogsNonempty;
    assert c.nodes[Actor(a)].log != [] by { CoreNode(c, Actor(a)); }
    match a
    case Deliver(p) => DeliverKeepsCore(c, p);
    case Timeout(id) => TimeoutKeepsCore(c, id);
    case Replicate(id) => ReplicateKeepsCore(c, id);
    case Commit(id) => CommitKeepsCore(c, id);
    case Append(id, commands) => AppendKeepsCore(c, id, commands);
  }

  lemma InitCore(ids: set<NodeId>)
    ensures Core(Init(ids)) && Ids(Init(ids)) == ids
  {
  }
}
