/** What a leader has committed, every node that accepts its requests commits too; and as long as it
    leads, it can bring any of the others to do so. */
module CommitSpread {
  import opened Messages
  import opened NodeSpec
  import opened Cluster
  import opened CoreInvariant
  import opened CoreFrame
  import opened LeaderStep
  import opened CommitInvariant
  import opened RunInvariants
  import opened RunSteps
  import opened Necessity
  import opened Overwriting
  import opened Safety

  /** Under the guards, a node that handles a request from the network has committed all the sender
      had committed if it accepts it, and nothing more than before if it does not. */
  lemma AcceptedIsCommitted(g: Guards, t: Trace, i: nat, p: Packet)
    requires Run(g, t) && g.oneVote && g.freshReply && g.commits == RECENT && i + 1 < |t.states|
    requires |t.actions| == |t.states| - 1 && t.actions[i] == Deliver(p) && p.body.AppendReq?
    ensures p.to in t.states[i].nodes && p.to in t.states[i + 1].nodes
    ensures var s, s', req := t.states[i].nodes[p.to], t.states[i + 1].nodes[p.to], p.body.appendReq;
            s'.commit == if && s.term <= req.leaderTerm && req.prevLogIndex < |s.log|
                            && s.log[req.prevLogIndex].leaderTerm == req.prevLogTerm
                         then Max(s.commit, req.leaderCommit) else s.commit
  {
    StepAt(g, t, i);
    RequestsCoverTheirCommit(g, t, i, p);
    hide Run, LogsNonempty, Obeys, Merged;
  }

  // What a leader can bring others to commit

  /** In every run under all guards a leader's indices point into its log. */
  lemma LeadsInRange(g: Guards, t: Trace, l: NodeId)
    requires Run(g, t) && g == Guards(true, true, true, RECENT)
    requires l in Last(t).nodes && Last(t).nodes[l].role.Leader?
    ensures Ids(Last(t)) == t.ids && Leading(Last(t).nodes[l], t.ids)
  {
    hide Run, Core, LogsNonempty, HistOk, NodeOk;
    RunBegins(g, t);
    var i := |t.states| - 1;
    IndicesInRange(g, t, i, l);
    RunSentinels(g, t, i);
    RunCore(g, t, i);
    CoreNode(Last(t), l);
    LeaderKeys(Last(t).hist, t.ids, l, Last(t).nodes[l]);
  }

  /** A leader's log holds all that nodes of no later term know to be committed. */
  lemma LeaderHolds(g: Guards, t: Trace, l: NodeId, f: NodeId)
    requires Run(g, t) && g.oneVote && g.freshReply && g.commits == RECENT
    requires l in Last(t).nodes && Last(t).nodes[l].role.Leader?
    requires f in Last(t).nodes && Last(t).nodes[f].term <= Last(t).nodes[l].term
    ensures var s, r := Last(t).nodes[l], Last(t).nodes[f]; r.commit < |r.log| && r.log[..r.commit + 1] <= s.log
  {
    hide Run, Core, HistOk, RecordsOk, CommittedBy;
    RunBegins(g, t);
    var i, s, r := |t.states| - 1, Last(t).nodes[l], Last(t).nodes[f];
    CommittedRecorded(g, t, i, i, f);
    RunCore(g, t, i);
    LeaderRecorded(Last(t), l, s.term);
    LeaderExtendsCommitted(Last(t).hist, t.ids, r.term, r.log[..r.commit + 1], s.term);
  }

  /** Under all guards: from any state of any run with a leader, some continuation brings any nodes of
      no later term to commit all the leader has committed, with the leader's entries. */
  lemma FollowersCanCommit(g: Guards, t: Trace, l: NodeId, fs: set<NodeId>) returns (w: Trace)
    requires Run(g, t) && g == Guards(true, true, true, RECENT)
    requires l in Last(t).nodes && Last(t).nodes[l].role.Leader? && l !in fs
    requires forall f | f in fs :: f in Last(t).nodes && Last(t).nodes[f].term <= Last(t).nodes[l].term
    ensures Run(g, w) && t.states <= w.states
    ensures forall f | f in fs ::
      f in Last(w).nodes && CommittedAs(Last(t).nodes[l], Last(t).nodes[f], Last(w).nodes[f])
  {
    var c := Last(t);
    Stays(g, t);
    hide Run, Path, AllQuiet, Leading, Catches, SameBut, Knows;
    RunBegins(g, t);
    LeadsInRange(g, t, l);
    RunSentinels(g, t, |t.states| - 1);
    forall f | f in fs ensures c.nodes[f].commit <= LastIndex(c.nodes[l].log) && c.nodes[l].commit < |c.nodes[l].log| {
      LeaderHolds(g, t, l, f);
      LeaderHolds(g, t, l, l);
    }
    assert forall f | f in fs :: Follows(c.nodes[l], c.nodes[f]);
    var u := TeachAll(g, At(t.ids, c), l, fs);
    JoinedRuns(g, t, u);
    w := Joined(t, u);
    forall f | f in fs ensures CommittedAs(c.nodes[l], c.nodes[f], Last(w).nodes[f]) {
      CaughtUp(g, t, w, l, f);
    }
  }

  /** `f'` has committed all that the leader `s` and `f` had committed, with the leader's entries. */
  predicate CommittedAs(s: NodeState, f: NodeState, f': NodeState) {
    && f'.commit == Max(f.commit, s.commit)
    && s.commit < |s.log| && s.commit < |f'.log| && f'.log[..s.commit + 1] == s.log[..s.commit + 1]
  }

  lemma CaughtUp(g: Guards, t: Trace, w: Trace, l: NodeId, f: NodeId)
    requires Run(g, t) && Run(g, w) && g == Guards(true, true, true, RECENT) && t.states <= w.states
    requires l in Last(t).nodes && f in Last(t).nodes && f in Last(w).nodes
    requires var s, r := Last(t).nodes[l], Last(t).nodes[f];
             s.log != [] && Catches(s, r, Last(w).nodes[f]) && r.commit <= LastIndex(s.log) && s.commit < |s.log|
    ensures CommittedAs(Last(t).nodes[l], Last(t).nodes[f], Last(w).nodes[f])
  {
    hide Run;
    RunBegins(g, t);
    StateMachineSafety(g, w, |t.states| - 1, |w.states| - 1, l, f, Last(t).nodes[l].commit);
  }
}
