/** Without G2 an old confirmation is believed: a run of five nodes, 1 to 5, in which a leader
    commits an entry that a later leader does not have, although every other guard holds. */
module StaleReply {
  import opened Options
  import opened Messages
  import opened NodeSpec
  import opened Cluster
  import opened RunSteps
  import opened Elections

  const FIVE: set<NodeId> := {1, 2, 3, 4, 5}

  ghost predicate Reached(g: Guards, t: Trace) {
    RunsTo(g, t) && t.ids == FIVE && t.states[0] == Init(FIVE)
  }

  // Elections with two voters

  predicate Apart(id: NodeId, a: NodeId, b: NodeId) {
    {id, a, b} <= FIVE && id != a && id != b && a != b
  }

  lemma ThreeOfFive(a: NodeId, b: NodeId, c: NodeId)
    requires a != b && a != c && b != c
    ensures |FIVE| == 5 && IsMajority(|{a, b, c}|, 5)
  {
    assert |{a, b, c}| == 3;
  }

  /** Node `id` times out and wins the next term with the votes of `a` and `b`. */
  lemma ElectWithTwo(g: Guards, t: Trace, id: NodeId, a: NodeId, b: NodeId) returns (t': Trace)
    requires Reached(g, t) && Apart(id, a, b) && !Last(t).nodes[id].role.Leader?
    requires var n := Last(t).nodes; WillGrant(n[a], n[id]) && WillGrant(n[b], n[id])
    ensures Reached(g, t') && Last(t).net <= Last(t').net
    ensures var n := Last(t).nodes; var leader := BecomeLeader(n[id].(term := n[id].term + 1), FIVE);
            Last(t').nodes == n[id := leader][a := Voted(n[a], leader.term, id)][b := Voted(n[b], leader.term, id)]
  {
    hide Path, AllQuiet, WillGrant, Voted, BecomeLeader, Announced, VoteRequestOf, IsMajority;
    ThreeOfFive(id, a, b);
    t' := Elect(g, t, id, {id, a, b});
    assert {id, a, b} <= FIVE;
    ThreeUpdates(Last(t).nodes, Last(t').nodes, id, a, b);
  }

  lemma ThreeUpdates(n: map<NodeId, NodeState>, n': map<NodeId, NodeState>, id: NodeId, a: NodeId, b: NodeId)
    requires n.Keys == n'.Keys && {id, a, b} <= n.Keys
    requires forall v | v in n && v !in {id, a, b} :: n'[v] == n[v]
    ensures n' == n[id := n'[id]][a := n'[a]][b := n'[b]]
  {
  }

  // The run

  const X: LogItem := LogItem("x", 1)
  const W: LogItem := LogItem("w", 1)
  const Y: LogItem := LogItem("y", 2)
  const Z: LogItem := LogItem("z", 3)

  /** Node 2's confirmation of two entries in term 1. */
  const STALE: Packet := Packet(2, 1, AppendResp(AppendEntriesResponse(1, Some(2))))

  function Empty(term: Term, vote: NodeId): NodeState {
    NodeState(term, Some(vote), [SENTINEL], 0, Follower)
  }

  lemma EmptyGrants(v: NodeState, s: NodeState)
    requires v.log == [SENTINEL] && s.log != [] && v.term <= s.term
    ensures WillGrant(v, s)
  {
  }

  lemma TwoItems(s: NodeState, a: Command, b: Command)
    ensures AppendCommands(s, [a, b]) == s.(log := s.log + [LogItem(a, s.term), LogItem(b, s.term)])
  {
  }

  lemma OneItem(s: NodeState, a: Command)
    ensures AppendCommands(s, [a]) == s.(log := s.log + [LogItem(a, s.term)])
  {
  }

  lemma FirstLeads(g: Guards) returns (t: Trace)
    ensures Reached(g, t)
    ensures var n := Last(t).nodes;
            && n[1] == BecomeLeader(INITIAL.(term := 1), FIVE).(log := [SENTINEL, X, W])
            && n[2] == Empty(1, 1) && n[3] == INITIAL && n[4] == Empty(1, 1) && n[5] == INITIAL
  {
    hide Path, AllQuiet, UpToDate, WillGrant;
    var t0 := Start(g, FIVE);
    EmptyGrants(INITIAL, INITIAL);
    var t1 := ElectWithTwo(g, t0, 1, 2, 4);
    TwoItems(Last(t1).nodes[1], "x", "w");
    t := ThenAppend(g, t1, 1, ["x", "w"]);
  }

  lemma FirstCopy(s: NodeState, f: NodeState)
    requires s.role.Leader? && Lookup(s.role.nextIndex, 2) == 1 && s.commit == 0
    requires s.log == [SENTINEL, X, W] && f.log == [SENTINEL] && f.term == s.term && f.role.Follower?
    ensures CanCopy(s, f, 2)
  {
    assert f.log[..1] == s.log[..1];
  }

  /** Node 1 leads term 1 and node 2 confirms its two entries. */
  lemma FirstTerm(g: Guards) returns (t: Trace)
    ensures Reached(g, t) && STALE in Last(t).net
    ensures var n := Last(t).nodes;
            && n[1] == NodeState(1, None, [SENTINEL, X, W], 0, n[1].role)
            && n[2] == NodeState(1, Some(1), [SENTINEL, X, W], 0, Follower)
            && n[3] == INITIAL && n[4] == Empty(1, 1) && n[5] == INITIAL
  {
    hide Path, AllQuiet, CanCopy;
    var t1 := FirstLeads(g);
    FirstCopy(Last(t1).nodes[1], Last(t1).nodes[2]);
    t := Copy(g, t1, 1, 2);
  }

  lemma FreshCopy(s: NodeState, f: NodeState, to: NodeId, item: LogItem)
    requires s.role.Leader? && Lookup(s.role.nextIndex, to) == 1 && s.commit == 0
    requires s.log == [SENTINEL, item] && f.log != [] && f.log[0] == SENTINEL && (|f.log| > 1 ==> f.log[1] != item)
    requires f.term < s.term || (f.term == s.term && f.role.Follower?)
    ensures CanCopy(s, f, to)
  {
    assert f.log[..1] == s.log[..1];
    assert s.log[1] == item;
  }

  /** Node 3 leads term 2 and has appended an entry. */
  lemma ThirdLeads(g: Guards, t: Trace) returns (t': Trace)
    requires Reached(g, t)
    requires var n := Last(t).nodes; n[3] == INITIAL && n[4] == Empty(1, 1) && n[5] == INITIAL
    ensures Reached(g, t') && Last(t).net <= Last(t').net
    ensures var n, n' := Last(t).nodes, Last(t').nodes;
            && n'[1] == n[1] && n'[2] == n[2]
            && n'[3] == BecomeLeader(INITIAL.(term := 2), FIVE).(log := [SENTINEL, Y])
            && n'[4] == Empty(2, 3) && n'[5] == Empty(2, 3)
  {
    hide Path, AllQuiet, UpToDate, WillGrant;
    var t1 := ThenTimeout(g, t, 3);
    EmptyGrants(Empty(1, 1), Last(t1).nodes[3]);
    EmptyGrants(INITIAL, Last(t1).nodes[3]);
    var t2 := ElectWithTwo(g, t1, 3, 4, 5);
    OneItem(Last(t2).nodes[3], "y");
    t' := ThenAppend(g, t2, 3, ["y"]);
  }

  /** Node 3 leads term 2 and replaces node 1's entries. */
  lemma SecondTerm(g: Guards, t: Trace) returns (t': Trace)
    requires Reached(g, t)
    requires var n := Last(t).nodes;
             && n[1].term == 1 && n[1].log == [SENTINEL, X, W] && n[1].commit == 0
             && n[3] == INITIAL && n[4] == Empty(1, 1) && n[5] == INITIAL
    ensures Reached(g, t') && Last(t).net <= Last(t').net
    ensures var n, n' := Last(t).nodes, Last(t').nodes;
            && n'[1] == NodeState(2, None, [SENTINEL, Y], 0, Follower)
            && n'[2] == n[2]
            && n'[3] == NodeState(2, None, [SENTINEL, Y], 0, n'[3].role)
            && n'[4] == NodeState(2, Some(3), [SENTINEL, Y], 0, Follower)
            && n'[5] == Empty(2, 3)
  {
    hide Path, AllQuiet, CanCopy;
    var t1 := ThirdLeads(g, t);
    var s := Last(t1).nodes[3];
    FreshCopy(s, Last(t1).nodes[1], 1, Y);
    var t2 := Copy(g, t1, 3, 1);
    FreshCopy(s, Last(t2).nodes[4], 4, Y);
    t' := Copy(g, t2, 3, 4);
  }

  lemma SameLogGrants(v: NodeState, s: NodeState)
    requires v.log == s.log && s.log != [] && v.term <= s.term
    ensures WillGrant(v, s)
  {
  }

  /** Node 1 leads term 3 with the votes of 3 and 4, and node 4 takes its new entry. */
  lemma ThirdTerm(g: Guards, t: Trace) returns (t': Trace)
    requires Reached(g, t)
    requires var n := Last(t).nodes;
             && n[1] == NodeState(2, None, [SENTINEL, Y], 0, Follower)
             && n[3] == NodeState(2, None, [SENTINEL, Y], 0, n[3].role)
             && n[4] == NodeState(2, Some(3), [SENTINEL, Y], 0, Follower)
    ensures Reached(g, t') && Last(t).net <= Last(t').net
    ensures var n, n' := Last(t).nodes, Last(t').nodes;
            && n'[1] == BecomeLeader(NodeState(3, None, [SENTINEL, Y], 0, Follower), FIVE).(log := [SENTINEL, Y, Z])
            && n'[2] == n[2] && n'[3] == NodeState(3, Some(1), [SENTINEL, Y], 0, Follower) && n'[5] == n[5]
            && Confirmation(4, 1, n'[1]) in Last(t').net
  {
    hide Path, AllQuiet, UpToDate, WillGrant, CanCopy;
    SameLogGrants(Last(t).nodes[3], Last(t).nodes[1]);
    SameLogGrants(Last(t).nodes[4], Last(t).nodes[1]);
    var t1 := ElectWithTwo(g, t, 1, 3, 4);
    OneItem(Last(t1).nodes[1], "z");
    var t2 := ThenAppend(g, t1, 1, ["z"]);
    LastCopy(Last(t2).nodes[1], Last(t2).nodes[4]);
    t' := Copy(g, t2, 1, 4);
  }

  lemma LastCopy(s: NodeState, f: NodeState)
    requires s.role.Leader? && Lookup(s.role.nextIndex, 4) == 2 && s.commit == 0
    requires s.log == [SENTINEL, Y, Z] && f.log == [SENTINEL, Y] && f.term == s.term && f.role.Follower?
    ensures CanCopy(s, f, 4)
  {
    assert s.log[..2] == f.log[..2];
  }

  /** Node 1 has counted the nodes of `known` for its last entry. */
  function Counting(known: set<NodeId>): Role {
    Leader(map i | i in FIVE :: if i in known then 3 else 2, map i | i in FIVE :: if i in known then 2 else 0)
  }

  lemma NoneCounted(s: NodeState)
    requires |s.log| == 2
    ensures BecomeLeader(s, FIVE).role == Counting({})
  {
  }

  lemma OneMoreCounted(known: set<NodeId>, from: NodeId)
    requires from in FIVE
    ensures var Leader(next, matched) := Counting(known);
            Leader(next[from := 3], matched[from := 2]) == Counting(known + {from})
  {
  }

  /** A confirmation of index 2 is believed, even one of an earlier term. */
  lemma Believe(g: Guards, t: Trace, p: Packet, known: set<NodeId>) returns (t': Trace)
    requires Reached(g, t) && !g.freshReply && Last(t).nodes[1].role == Counting(known)
    requires p in Last(t).net && p.to == 1 && p.from in FIVE && p.from !in known
    requires p.body.AppendResp? && p.body.appendResp.matchedUntil == Some(2)
    requires p.body.appendResp.currentTerm <= Last(t).nodes[1].term
    ensures Reached(g, t') && Last(t').net == Last(t).net
    ensures Last(t').nodes == Last(t).nodes[1 := Last(t).nodes[1].(role := Counting(known + {p.from}))]
  {
    hide Path, AllQuiet;
    OneMoreCounted(known, p.from);
    t' := ThenAppendResp(g, t, p);
  }

  lemma CommitsZ(s: NodeState)
    requires s.role == Counting({} + {1} + {4} + {2}) && s.commit == 0 && s.log == [SENTINEL, Y, Z]
    ensures s.role.Leader? && CommitIfPossible(s, |FIVE|) == s.(commit := 2)
  {
    assert Holders(s.role.matchIndex, 2) == {1, 4, 2};
    ThreeOfFive(1, 4, 2);
  }

  /** Node 1 counts itself. */
  lemma CountsSelf(g: Guards, t: Trace) returns (t': Trace)
    requires Reached(g, t) && !g.freshReply
    requires var s := Last(t).nodes[1];
             s == BecomeLeader(NodeState(3, None, [SENTINEL, Y], 0, Follower), FIVE).(log := [SENTINEL, Y, Z])
    ensures Reached(g, t') && Last(t).net <= Last(t').net
    ensures Last(t').nodes == Last(t).nodes[1 := Last(t).nodes[1].(role := Counting({} + {1}))]
  {
    hide Path, AllQuiet;
    NoneCounted(NodeState(3, None, [SENTINEL, Y], 0, Follower));
    assert SendsAll(Last(t).nodes[1], FIVE);
    hide Counting, SendsAll, BecomeLeader;
    var t1 := ConfirmOwn(g, t, 1);
    t' := Believe(g, t1, Confirmation(1, 1, Last(t).nodes[1]), {});
  }

  /** Node 1 counts itself and node 4. */
  lemma CountsTwo(g: Guards, t: Trace) returns (t': Trace)
    requires Reached(g, t) && !g.freshReply
    requires var s := Last(t).nodes[1];
             && s == BecomeLeader(NodeState(3, None, [SENTINEL, Y], 0, Follower), FIVE).(log := [SENTINEL, Y, Z])
             && Confirmation(4, 1, s) in Last(t).net
    ensures Reached(g, t') && Last(t).net <= Last(t').net
    ensures Last(t').nodes == Last(t).nodes[1 := Last(t).nodes[1].(role := Counting({} + {1} + {4}))]
  {
    hide Path, AllQuiet, Counting;
    var t1 := CountsSelf(g, t);
    t' := Believe(g, t1, Confirmation(4, 1, Last(t).nodes[1]), {} + {1});
  }

  /** With the old confirmation node 1 counts 1, 4 and 2 for an entry that node 2 has not. */
  lemma CountsTooMany(g: Guards, t: Trace) returns (t': Trace)
    requires Reached(g, t) && !g.freshReply && STALE in Last(t).net
    requires var s := Last(t).nodes[1];
             && s == BecomeLeader(NodeState(3, None, [SENTINEL, Y], 0, Follower), FIVE).(log := [SENTINEL, Y, Z])
             && Confirmation(4, 1, s) in Last(t).net
    ensures Reached(g, t')
    ensures Last(t').nodes == Last(t).nodes[1 := Last(t).nodes[1].(role := Counting({} + {1} + {4} + {2}))]
  {
    hide Path, AllQuiet, Counting;
    var t1 := CountsTwo(g, t);
    hide BecomeLeader;
    t' := Believe(g, t1, STALE, {} + {1} + {4});
  }

  lemma CommitsTooSoon(g: Guards, t: Trace) returns (t': Trace)
    requires Reached(g, t)
    requires Last(t).nodes[1] == NodeState(3, None, [SENTINEL, Y, Z], 0, Counting({} + {1} + {4} + {2}))
    ensures Reached(g, t')
    ensures Last(t').nodes == Last(t).nodes[1 := Last(t).nodes[1].(commit := 2)]
  {
    hide Path, AllQuiet, HighestHeld, Counting;
    CommitsZ(Last(t).nodes[1]);
    hide CommitIfPossible;
    t' := ThenCommit(g, t, 1);
  }

  /** Without G2 leader completeness fails: node 1 commits an entry in term 3, and node 3 leads
      term 4 without it. */
  lemma LeaderLacksCommitted() returns (t: Trace)
    ensures Run(Guards(true, false, true, RECENT), t) && NoLeaderTimesOut(t)
    ensures 1 in Last(t).nodes && Last(t).nodes[1].term == 3 && Leads(Last(t), 3, 4)
    ensures Last(t).nodes[1].commit == 2 && Last(t).nodes[1].log == [SENTINEL, Y, Z]
    ensures Last(t).nodes[3].log == [SENTINEL, Y]
  {
    hide Path, AllQuiet, UpToDate, WillGrant, Counting, Voted, IsMajority;
    var g := Guards(true, false, true, RECENT);
    var t1 := FirstTerm(g);
    var t2 := SecondTerm(g, t1);
    var t3 := ThirdTerm(g, t2);
    var t4 := CountsTooMany(g, t3);
    var t5 := CommitsTooSoon(g, t4);
    var n := Last(t5).nodes;
    OlderLogGrants(n[2], n[3]);
    EmptyGrants(n[5], n[3]);
    t := ElectWithTwo(g, t5, 3, 2, 5);
    PathIsRun(g, t);
  }

  lemma OlderLogGrants(v: NodeState, s: NodeState)
    requires v.log != [] && s.log != [] && LastTerm(v.log) < LastTerm(s.log) && v.term <= s.term
    ensures WillGrant(v, s)
  {
  }
}
