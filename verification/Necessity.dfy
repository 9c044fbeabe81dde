/** Why the guards are needed in any state, not only in single runs: a node as up-to-date as a
    majority can always be elected, so whatever it lacks can be lost; and a candidate that a
    sitting leader and enough others may still grant becomes a second leader. */
module Necessity {
  import opened Options
  import opened Messages
  import opened NodeSpec
  import opened Cluster
  import opened RunSteps
  import opened Elections
  import opened NodeActions
  import opened Safety

  /** `w` does what `t` does and then what `u` does. */
  function Joined(t: Trace, u: Trace): Trace
    requires u.states != []
  {
    Trace(t.ids, t.states + u.states[1..], t.actions + u.actions)
  }

  lemma JoinedRuns(g: Guards, t: Trace, u: Trace)
    requires Run(g, t) && RunsTo(g, u) && u.ids == t.ids && u.states[0] == Last(t)
    ensures Run(g, Joined(t, u)) && t.states <= Joined(t, u).states && Last(Joined(t, u)) == Last(u)
  {
    var w, n := Joined(t, u), |t.actions|;
    forall i | 0 <= i < |w.actions| ensures StepOk(g, w.states[i], w.actions[i], w.states[i + 1]) {
      if i < n {
        assert StepOk(g, t.states[i], t.actions[i], t.states[i + 1]);
      } else {
        assert w.states[i] == u.states[i - n] && w.states[i + 1] == u.states[i - n + 1];
        assert StepOk(g, u.states[i - n], u.actions[i - n], u.states[i - n + 1]);
      }
    }
  }

  // Who can be elected

  /** Node `x` does not lead, and its log is at least as up-to-date as those of a majority. */
  predicate Electable(c: State, x: NodeId, voters: set<NodeId>) {
    && LogsNonempty(c) && x in voters && voters <= Ids(c) && IsMajority(|voters|, |Ids(c)|) && !c.nodes[x].role.Leader?
    && forall v | v in voters :: UpToDate(LastTerm(c.nodes[x].log), LastIndex(c.nodes[x].log), c.nodes[v].log)
  }

  lemma {:induction false} TermBound(n: map<NodeId, NodeState>, among: set<NodeId>) returns (m: Term)
    requires among <= n.Keys
    ensures forall v | v in among :: n[v].term <= m
    decreases |among|
  {
    if among == {} {
      m := 0;
    } else {
      var v :| v in among;
      m := TermBound(n, among - {v});
      m := Max(m, n[v].term);
    }
  }

  /** From any state on, whatever the guards, an electable node can win a term above any other,
      with the log it has; its voters keep their logs and follow it. */
  lemma ElectableWins(g: Guards, t: Trace, x: NodeId, voters: set<NodeId>, floor: Term) returns (t': Trace)
    requires RunsTo(g, t) && Electable(Last(t), x, voters)
    ensures RunsTo(g, t') && Continues(t, t')
    ensures Leads(Last(t'), x, Last(t').nodes[x].term) && floor < Last(t').nodes[x].term
    ensures var s := Last(t').nodes[x]; s.log == Last(t).nodes[x].log && s.role == BecomeLeader(s, t.ids).role
    ensures forall v | v in voters && v != x ::
      var f := Last(t').nodes[v];
      f.role.Follower? && f.term == Last(t').nodes[x].term && f.log == Last(t).nodes[v].log
  {
    var m := TermBound(Last(t).nodes, voters);
    hide Path, AllQuiet;
    var t1 := CatchUp(g, t, x, Max(m, floor));
    forall v | v in voters && v != x ensures WillGrant(Last(t1).nodes[v], Last(t1).nodes[x]) {
      assert Last(t1).nodes[v] == Last(t).nodes[v];
    }
    t' := Elect(g, t1, x, voters);
  }

  // G4

  /** What an electable node lacks of a node's committed entries, a later leader lacks in some
      run, whatever guards hold: in that run leader completeness fails. */
  lemma LackingIsLost(g: Guards, t: Trace, a: NodeId, x: NodeId, voters: set<NodeId>) returns (w: Trace)
    requires Run(g, t) && a in Last(t).nodes && Electable(Last(t), x, voters)
    requires var s := Last(t).nodes[a]; s.commit < |s.log| && !(s.log[..s.commit + 1] <= Last(t).nodes[x].log)
    ensures Run(g, w) && t.states <= w.states && x in Last(w).nodes && Last(w).nodes[x].role.Leader?
    ensures var s := Last(t).nodes[a];
            s.term < Last(w).nodes[x].term && !(s.log[..s.commit + 1] <= Last(w).nodes[x].log)
  {
    Stays(g, t);
    hide Run, Path, AllQuiet, Electable;
    var u := ElectableWins(g, At(t.ids, Last(t)), x, voters, Last(t).nodes[a].term);
    JoinedRuns(g, t, u);
    w := Joined(t, u);
  }

  lemma Stays(g: Guards, t: Trace)
    requires Run(g, t)
    ensures RunsTo(g, At(t.ids, Last(t)))
  {
    LogsNeverEmpty(g, t, |t.states| - 1);
  }

  /** So in every run under G1, G2 and G4 each node whose log is as up-to-date as those of a
      majority holds everything that any node knows to be committed. */
  lemma ElectableHasCommitted(g: Guards, t: Trace, a: NodeId, x: NodeId, voters: set<NodeId>)
    requires Run(g, t) && g.oneVote && g.freshReply && g.commits == RECENT
    requires a in t.ids && a in Last(t).nodes && x in Last(t).nodes && Electable(Last(t), x, voters)
    ensures var s := Last(t).nodes[a]; s.commit < |s.log| && s.log[..s.commit + 1] <= Last(t).nodes[x].log
  {
    assert |t.states| > 0;
    hide Run, Electable, LogsNonempty;
    var i := |t.states| - 1;
    CommittedEntriesStay(g, t, i, i, a);
    var s := Last(t).nodes[a];
    if !(s.log[..s.commit + 1] <= Last(t).nodes[x].log) {
      var w := LackingIsLost(g, t, a, x, voters);
      LeaderCompleteness(g, w, i, |w.states| - 1, a, x);
    }
  }

  // G1

  /** Without G1: if a majority may still grant a candidate of a term that has a leader, that
      leader among them or not, some continuation has two leaders of the term. */
  lemma SecondLeader(g: Guards, t: Trace, l: NodeId, x: NodeId, voters: set<NodeId>) returns (t': Trace)
    requires RunsTo(g, t) && !g.oneVote && l != x && x in t.ids && voters <= t.ids
    requires Leads(Last(t), l, Last(t).nodes[x].term)
    requires var s := Last(t).nodes[x];
             && s.role.Candidate? && s.votedFor == Some(x)
             && !IsMajority(|s.role.votes|, |t.ids|) && IsMajority(|s.role.votes + voters|, |t.ids|)
             && forall v | v in voters ::
               MayGrant(Last(t).nodes[v], s, x) && Packet(x, v, VoteReq(VoteRequestOf(s, x))) in Last(t).net
    ensures RunsTo(g, t') && Continues(t, t')
    ensures Leads(Last(t'), l, Last(t).nodes[x].term) && Leads(Last(t'), x, Last(t).nodes[x].term)
  {
    hide Path, AllQuiet, MayGrant, VoteRequestOf, Grant;
    var s := Last(t).nodes[x];
    OwnVoteIsVoted(s, x);
    var t1 := GrantAll(g, t, x, voters);
    t' := CountAll(g, t1, x, s.role.votes, voters);
  }
}
