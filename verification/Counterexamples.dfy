/** Runs of the unguarded code that break the safety properties: the guards G1 and G3 cannot be
    dropped. All use three nodes, 1, 2 and 3; StaleReply.dfy does G2 and OldCommit.dfy G4. */
module Counterexamples {
  import opened Options
  import opened Messages
  import opened NodeSpec
  import opened Cluster
  import opened RunSteps
  import opened Elections

  const NODES: set<NodeId> := {1, 2, 3}

  /** A run of the three nodes that ends in `Last(t)`. */
  ghost predicate Reached(g: Guards, t: Trace) {
    RunsTo(g, t) && t.ids == NODES && t.states[0] == Init(NODES)
  }

  // Elections

  /** The node that is neither `a` nor `b`. */
  function Third(a: NodeId, b: NodeId): NodeId {
    if a + b <= 6 then 6 - a - b else 0
  }

  lemma TwoOfThree(a: NodeId, b: NodeId)
    requires a != b
    ensures IsMajority(|{a} + {b}|, |NODES|) && !IsMajority(|{a}|, |NODES|)
  {
    assert {a} + {b} == {a, b};
    assert |{a, b}| == 2;
  }

  /** A candidate that has its own vote wins with one more. */
  lemma WinWith(g: Guards, t: Trace, id: NodeId, voter: NodeId) returns (t': Trace)
    requires Reached(g, t) && id in NODES && voter in NODES && id != voter
    requires var s := Last(t).nodes[id];
             && s.role == Candidate({id})
             && Packet(voter, id, VoteResp(RequestVoteResponse(s.term, true, s.term))) in Last(t).net
    ensures Reached(g, t') && Last(t).net <= Last(t').net
    ensures var s := BecomeLeader(Last(t).nodes[id], NODES);
            Last(t').nodes == Last(t).nodes[id := s] && AppendRequests(s, id, NODES) <= Last(t').net
  {
    var s := Last(t).nodes[id];
    TwoOfThree(id, voter);
    t' := ThenVoteResp(g, t, Packet(voter, id, VoteResp(RequestVoteResponse(s.term, true, s.term))));
  }

  /** Node `id` times out and wins the next term with the vote of `voter`. */
  lemma ElectWith(g: Guards, t: Trace, id: NodeId, voter: NodeId) returns (t': Trace)
    requires RunsTo(g, t) && t.ids == NODES && id in NODES && voter in NODES && id != voter
    requires !Last(t).nodes[id].role.Leader?
    requires var s, v := Last(t).nodes[id], Last(t).nodes[voter];
             v.term <= s.term && UpToDate(LastTerm(s.log), LastIndex(s.log), v.log)
    ensures RunsTo(g, t') && Continues(t, t') && Last(t).net <= Last(t').net
    ensures var n := Last(t).nodes; var leader := BecomeLeader(n[id].(term := n[id].term + 1), NODES);
            && Last(t').nodes == n[id := leader][voter := Voted(n[voter], leader.term, id)]
            && AppendRequests(leader, id, NODES) <= Last(t').net
            && Packet(id, Third(id, voter), VoteReq(VoteRequestOf(leader, id))) in Last(t').net
  {
    hide Path, AllQuiet, UpToDate, Voted, AppendRequests, VoteRequestOf, BecomeLeader, IsMajority;
    TwoOfThree(id, voter);
    assert {id} + {voter} == {id, voter};
    t' := Elect(g, t, id, {id, voter});
    assert Third(id, voter) in NODES;
    assert {id, voter} <= NODES;
    TwoUpdates(Last(t).nodes, Last(t').nodes, id, voter);
  }

  lemma TwoUpdates(n: map<NodeId, NodeState>, n': map<NodeId, NodeState>, a: NodeId, b: NodeId)
    requires n.Keys == n'.Keys && a in n && b in n
    requires forall v | v in n && v != a && v != b :: n'[v] == n[v]
    ensures n' == n[a := n'[a]][b := n'[b]]
  {
  }

  // G1

  /** Nodes 1 and 2 run for term 1; node 1 wins with node 3, and node 2 has its own vote. */
  lemma OneLeadsOneRuns(g: Guards) returns (t: Trace)
    ensures Reached(g, t)
    ensures var n := Last(t).nodes;
            && n[1] == BecomeLeader(INITIAL.(term := 1), NODES)
            && n[2] == NodeState(1, Some(2), [SENTINEL], 0, Candidate({2}))
    ensures Packet(2, 1, VoteReq(RequestVoteRequest(1, 2, 0, 0))) in Last(t).net
  {
    hide Path, AllQuiet;
    var t1 := OneRuns(g);
    SameLogUpToDate([SENTINEL]);
    hide BecomeLeader, UpToDate, AppendRequests;
    var t2 := ElectWith(g, t1, 1, 3);
    t := VoteForSelf(g, t2, 2);
  }

  lemma OneRuns(g: Guards) returns (t: Trace)
    ensures Reached(g, t)
    ensures Last(t).nodes == (map i | i in NODES :: INITIAL)[2 := BecomeCandidate(INITIAL, 2)]
    ensures forall to | to in NODES :: Packet(2, to, VoteReq(RequestVoteRequest(1, 2, 0, 0))) in Last(t).net
  {
    hide Path, AllQuiet;
    var t0 := Start(g, NODES);
    t := AskVotes(g, t0, 2);
  }

  /** Without G1 two nodes can lead the same term: node 1 wins term 1, which clears its
      vote, and then grants the term again to node 2. */
  lemma TwoLeadersInOneTerm() returns (t: Trace)
    ensures Run(Guards(false, true, true, RECENT), t) && NoLeaderTimesOut(t)
    ensures Leads(Last(t), 1, 1) && Leads(Last(t), 2, 1)
  {
    hide Path, AllQuiet;
    var g := Guards(false, true, true, RECENT);
    var t1 := OneLeadsOneRuns(g);
    var t2 := Then(g, t1, Deliver(Packet(2, 1, VoteReq(RequestVoteRequest(1, 2, 0, 0)))));
    t := WinWith(g, t2, 2, 1);
    PathIsRun(g, t);
  }

  // Replication by a leader `id` of one entry to node 3

  /** `id` has one entry, which node 3 lacks, and starts by offering what follows it. */
  predicate Lagging(c: State, id: NodeId, next: nat) {
    && Ids(c) == NODES && id in NODES && id != 3
    && var s, f := c.nodes[id], c.nodes[3];
    && |s.log| == 2 && s.log[0] == SENTINEL && s.commit == 0
    && s.role == Leader((map i | i in NODES :: 2)[3 := next], map i | i in NODES :: 0)
    && f.term == s.term && f.role.Follower? && f.commit == 0
    && 1 <= |f.log| <= 2 && f.log[0] == SENTINEL && (|f.log| == 2 ==> f.log[1].leaderTerm != s.log[1].leaderTerm)
  }

  function Request(s: NodeState, id: NodeId, to: NodeId): Packet
    requires SendDefined(s, to)
  {
    Packet(id, to, AppendReq(AppendRequestFor(s, id, to)))
  }

  /** Node 3 turns down the first offer. */
  lemma Rejects(g: Guards, t: Trace, id: NodeId) returns (t': Trace)
    requires Reached(g, t) && Lagging(Last(t), id, 2) && AppendRequests(Last(t).nodes[id], id, NODES) <= Last(t).net
    ensures Reached(g, t') && Last(t').nodes == Last(t).nodes && Last(t).net <= Last(t').net
    ensures Packet(3, id, AppendResp(AppendEntriesResponse(Last(t).nodes[id].term, None))) in Last(t').net
  {
    hide Path, AllQuiet;
    var s := Last(t).nodes[id];
    assert Request(s, id, 3) in AppendRequests(s, id, NODES);
    t' := ThenAppendReq(g, t, Request(s, id, 3));
    assert Last(t').nodes == Last(t).nodes;
  }

  /** The rejection makes the leader offer the entry itself. */
  lemma StepsBack(g: Guards, t: Trace, id: NodeId) returns (t': Trace)
    requires Reached(g, t) && Lagging(Last(t), id, 2)
    requires Packet(3, id, AppendResp(AppendEntriesResponse(Last(t).nodes[id].term, None))) in Last(t).net
    ensures Reached(g, t') && Last(t).net <= Last(t').net && Lagging(Last(t'), id, 1)
    ensures Last(t').nodes == Last(t).nodes[id := Last(t').nodes[id]]
    ensures Last(t').nodes[id] == Last(t).nodes[id].(role := Last(t').nodes[id].role)
  {
    hide Path, AllQuiet;
    t' := ThenAppendResp(g, t, Packet(3, id, AppendResp(AppendEntriesResponse(Last(t).nodes[id].term, None))));
  }

  lemma AppendOne(s: NodeState, command: Command)
    ensures AppendCommands(s, [command]) == s.(log := s.log + [LogItem(command, s.term)])
  {
  }

  /** A node without entries is elected by node 3 and appends a command. */
  lemma ElectAndAppend(g: Guards, t: Trace, id: NodeId, command: Command) returns (t': Trace)
    requires Reached(g, t) && id in {1, 2} && !Last(t).nodes[id].role.Leader?
    requires var s, v := Last(t).nodes[id], Last(t).nodes[3];
             v.term <= s.term && s.log == [SENTINEL] && v.log == [SENTINEL] && v.commit == 0 && s.commit == 0
    ensures Reached(g, t') && Last(t).net <= Last(t').net
    ensures var s, s' := Last(t).nodes[id], Last(t').nodes[id];
            && s' == NodeState(s.term + 1, None, [SENTINEL, LogItem(command, s.term + 1)], 0, s'.role)
            && Last(t').nodes[3] == NodeState(s.term + 1, Some(id), [SENTINEL], 0, Follower)
            && Packet(id, Third(id, 3), VoteReq(RequestVoteRequest(s.term + 1, id, 0, 0))) in Last(t').net
            && forall i | i in {1, 2} && i != id :: Last(t').nodes[i] == Last(t).nodes[i]
  {
    hide Path, AllQuiet, UpToDate;
    assert UpToDate(LastTerm([SENTINEL]), LastIndex([SENTINEL]), [SENTINEL]) by { SameLogUpToDate([SENTINEL]); }
    var t1 := ElectWith(g, t, id, 3);
    t' := ThenAppend(g, t1, id, [command]);
    AppendOne(Last(t1).nodes[id], command);
  }

  lemma SameLogUpToDate(log: Log)
    requires log != []
    ensures UpToDate(LastTerm(log), LastIndex(log), log)
  {
  }

  // G3

  /** Node 1 leads term 1, appends, steps down for node 3, and leads term 3: now node 3 lags. */
  lemma ReelectedAhead(g: Guards) returns (t: Trace)
    ensures Reached(g, t) && Lagging(Last(t), 1, 2) && Last(t).nodes[1].term == 3
    ensures AppendRequests(Last(t).nodes[1], 1, NODES) <= Last(t).net
  {
    hide Path, AllQuiet;
    var t0 := Start(g, NODES);
    var t1 := ElectAndAppend(g, t0, 1, "x");
    var t2 := AskVotes(g, t1, 3);
    var t3 := StepDown(g, t2, 1, 3, VoteRequestOf(Last(t2).nodes[3], 3));
    t := ElectWith(g, t3, 1, 3);
  }

  /** Without G3 a repeated rejection takes a next index to 0, and the leader's next
      replication would read before the start of its log. */
  lemma NextIndexReachesZero() returns (t: Trace)
    ensures Run(Guards(true, true, false, RECENT), t) && NoLeaderTimesOut(t)
    ensures Leads(Last(t), 1, 3) && Lookup(Last(t).nodes[1].role.nextIndex, 3) == 0
    ensures !Enabled(Last(t), Replicate(1))
  {
    hide Path, AllQuiet;
    var g := Guards(true, true, false, RECENT);
    var t1 := ReelectedAhead(g);
    var t2 := Rejects(g, t1, 1);
    var t3 := StepsBack(g, t2, 1);
    t := ThenAppendResp(g, t3, Packet(3, 1, AppendResp(AppendEntriesResponse(3, None))));
    assert !SendDefined(Last(t).nodes[1], 3);
    PathIsRun(g, t);
  }

  // Replication and commitment of that entry

  /** Both the leader and node 3 hold the entry, and the leader knows of `known`. */
  predicate Offered(c: State, id: NodeId, known: set<NodeId>) {
    && Ids(c) == NODES && id in NODES && id != 3
    && var s, f := c.nodes[id], c.nodes[3];
    && |s.log| == 2 && s.log[0] == SENTINEL && s.commit == 0 && s.role.Leader?
    && s.role.matchIndex == (map i | i in NODES :: if i in known then 1 else 0)
    && s.role.nextIndex.Keys == NODES
    && f == NodeState(s.term, f.votedFor, s.log, 0, Follower)
  }

  /** The leader sends its entry again. */
  lemma Resend(g: Guards, t: Trace, id: NodeId) returns (t': Trace)
    requires Reached(g, t) && Lagging(Last(t), id, 1)
    ensures Reached(g, t') && Last(t).net <= Last(t').net && Last(t').nodes == Last(t).nodes
    ensures var s := Last(t).nodes[id];
            Packet(id, 3, AppendReq(AppendEntriesRequest(s.term, id, 0, 0, s.log[1..], 0))) in Last(t').net
  {
    LaggingSends(Last(t), id);
    hide Path, AllQuiet, Lagging, AppendRequests;
    t' := ThenReplicate(g, t, id);
  }

  lemma LaggingSends(c: State, id: NodeId)
    requires Lagging(c, id, 1) && LogsNonempty(c)
    ensures Enabled(c, Replicate(id))
    ensures var s := c.nodes[id];
            Packet(id, 3, AppendReq(AppendEntriesRequest(s.term, id, 0, 0, s.log[1..], 0)))
              in AppendRequests(s, id, NODES)
  {
    var s := c.nodes[id];
    assert Request(s, id, 3) in AppendRequests(s, id, NODES);
  }

  /** Node 3 takes the entry in place of what it had. */
  lemma Takes(f: NodeState, s: NodeState, id: NodeId)
    requires f.term == s.term && f.role.Follower? && f.commit == 0
    requires |s.log| == 2 && s.log[0] == SENTINEL && 1 <= |f.log| <= 2 && f.log[0] == SENTINEL
    ensures HandleAppendReq(f, AppendEntriesRequest(s.term, id, 0, 0, s.log[1..], 0))
            == (NodeState(s.term, f.votedFor, s.log, 0, Follower), AppendEntriesResponse(s.term, Some(1)))
  {
    assert f.log[..1] + s.log[1..] == s.log;
    assert s.log <= f.log ==> f.log == s.log;
  }

  lemma Offer(g: Guards, t: Trace, id: NodeId) returns (t': Trace)
    requires Reached(g, t) && Lagging(Last(t), id, 1)
    ensures Reached(g, t') && Last(t).net <= Last(t').net && Offered(Last(t'), id, {})
    ensures Last(t').nodes == Last(t).nodes[3 := Last(t').nodes[3]]
    ensures Packet(3, id, AppendResp(AppendEntriesResponse(Last(t).nodes[id].term, Some(1)))) in Last(t').net
  {
    hide Path, AllQuiet, HandleAppendReq;
    var s, f := Last(t).nodes[id], Last(t).nodes[3];
    var t1 := Resend(g, t, id);
    Takes(f, s, id);
    t' := ThenAppendReq(g, t1, Packet(id, 3, AppendReq(AppendEntriesRequest(s.term, id, 0, 0, s.log[1..], 0))));
    assert s.role.matchIndex == map i | i in NODES :: if i in {} then 1 else 0;
  }

  /** The leader's own copy is confirmed through its own mailbox. */
  lemma ConfirmsItself(g: Guards, t: Trace, id: NodeId, p: Packet) returns (t': Trace)
    requires Reached(g, t) && Offered(Last(t), id, {}) && p in Last(t).net
    requires var s := Last(t).nodes[id];
             p == Packet(id, id, AppendReq(AppendEntriesRequest(s.term, id, 1, s.log[1].leaderTerm, [], 0)))
    ensures Reached(g, t') && Last(t').nodes == Last(t).nodes && Last(t).net <= Last(t').net
    ensures Packet(id, id, AppendResp(AppendEntriesResponse(Last(t).nodes[id].term, Some(1)))) in Last(t').net
  {
    hide Path, AllQuiet;
    var s := Last(t).nodes[id];
    t' := ThenAppendReq(g, t, p);
    assert s.log[..2] + [] == s.log;
    assert Last(t').nodes == Last(t).nodes;
  }

  lemma OneMoreKnows(known: set<NodeId>, from: NodeId)
    requires from in NODES
    ensures (map i | i in NODES :: if i in known then 1 else 0)[from := 1]
            == map i | i in NODES :: if i in known + {from} then 1 else 0
  {
  }

  lemma Learns(g: Guards, t: Trace, id: NodeId, from: NodeId, known: set<NodeId>) returns (t': Trace)
    requires Reached(g, t) && Offered(Last(t), id, known) && from in NODES
    requires Packet(from, id, AppendResp(AppendEntriesResponse(Last(t).nodes[id].term, Some(1)))) in Last(t).net
    ensures Reached(g, t') && Last(t').net == Last(t).net && Offered(Last(t'), id, known + {from})
    ensures Last(t').nodes == Last(t).nodes[id := Last(t').nodes[id]]
    ensures Last(t').nodes[id] == Last(t).nodes[id].(role := Last(t').nodes[id].role)
  {
    hide Path, AllQuiet;
    OneMoreKnows(known, from);
    t' := ThenAppendResp(g, t, Packet(from, id, AppendResp(AppendEntriesResponse(Last(t).nodes[id].term, Some(1)))));
  }

  /** Two of three hold index 1, so the leader commits it, whatever its term. */
  lemma CommitsOne(g: Guards, t: Trace, id: NodeId) returns (t': Trace)
    requires Reached(g, t) && Offered(Last(t), id, {3, id})
    requires Allows(g, Last(t).nodes[id].log[1].leaderTerm, Last(t).nodes[id].term)
    ensures Reached(g, t') && Last(t').net == Last(t).net
    ensures Last(t').nodes == Last(t).nodes[id := Last(t).nodes[id].(commit := 1)]
  {
    hide Path, AllQuiet;
    var s := Last(t).nodes[id];
    assert Holders(s.role.matchIndex, 1) == {3} + {id};
    TwoOfThree(3, id);
    t' := ThenCommit(g, t, id);
  }

  /** From a fresh election of `id` to a copy of its one entry at node 3. */
  lemma ReplicateToThird(g: Guards, t: Trace, id: NodeId) returns (t': Trace)
    requires Reached(g, t) && id in NODES && Lagging(Last(t), id, 2)
    requires AppendRequests(Last(t).nodes[id], id, NODES) <= Last(t).net
    ensures Reached(g, t') && Last(t).net <= Last(t').net && Offered(Last(t'), id, {})
    ensures Last(t').nodes.Keys == NODES && Last(t').nodes[id].(role := Last(t).nodes[id].role) == Last(t).nodes[id]
    ensures forall i | i in NODES && i != id && i != 3 :: Last(t').nodes[i] == Last(t).nodes[i]
    ensures Packet(3, id, AppendResp(AppendEntriesResponse(Last(t).nodes[id].term, Some(1)))) in Last(t').net
  {
    hide Path, AllQuiet, Lagging, Offered;
    var t1 := Rejects(g, t, id);
    LaggingSame(Last(t), Last(t1), id);
    LaggingApart(Last(t), id);
    var t2 := StepsBack(g, t1, id);
    t' := Offer(g, t2, id);
  }

  /** ... and on to the commitment of that entry. */
  lemma ReplicateAndCommit(g: Guards, t: Trace, id: NodeId) returns (t': Trace)
    requires Reached(g, t) && id in NODES && Lagging(Last(t), id, 2)
    requires Allows(g, Last(t).nodes[id].log[1].leaderTerm, Last(t).nodes[id].term)
    requires AppendRequests(Last(t).nodes[id], id, NODES) <= Last(t).net
    ensures Reached(g, t') && Last(t).net <= Last(t').net
    ensures forall i | i in NODES && i != id && i != 3 :: Last(t').nodes[i] == Last(t).nodes[i]
    ensures var s, s', f := Last(t).nodes[id], Last(t').nodes[id], Last(t').nodes[3];
            && s' == s.(commit := 1, role := s'.role) && s'.role.Leader?
            && f == NodeState(s.term, f.votedFor, s.log, 0, Follower)
  {
    hide Path, AllQuiet, Lagging, Offered;
    var s := Last(t).nodes[id];
    SelfRequest(Last(t), id);
    LaggingApart(Last(t), id);
    var self := Packet(id, id, AppendReq(AppendEntriesRequest(s.term, id, 1, s.log[1].leaderTerm, [], 0)));
    var t1 := ReplicateToThird(g, t, id);
    var t2 := ConfirmsItself(g, t1, id, self);
    OfferedSame(Last(t1), Last(t2), id);
    var t3 := Learns(g, t2, id, 3, {});
    var t4 := Learns(g, t3, id, id, {} + {3});
    assert {} + {3} + {id} == {3, id};
    t' := CommitsOne(g, t4, id);
    OfferedMeans(Last(t4), id);
  }

  lemma LaggingApart(c: State, id: NodeId)
    requires Lagging(c, id, 2)
    ensures id != 3
  {
  }

  lemma SelfRequest(c: State, id: NodeId)
    requires Lagging(c, id, 2) && AppendRequests(c.nodes[id], id, NODES) <= c.net
    ensures |c.nodes[id].log| == 2
    ensures var s := c.nodes[id];
            Packet(id, id, AppendReq(AppendEntriesRequest(s.term, id, 1, s.log[1].leaderTerm, [], 0))) in c.net
  {
    assert Request(c.nodes[id], id, id) in AppendRequests(c.nodes[id], id, NODES);
  }

  lemma LaggingSame(c: State, c': State, id: NodeId)
    requires Lagging(c, id, 2) && c'.nodes == c.nodes
    ensures Lagging(c', id, 2)
  {
  }

  lemma OfferedSame(c: State, c': State, id: NodeId)
    requires Offered(c, id, {}) && c'.nodes == c.nodes
    ensures Offered(c', id, {})
  {
  }

  lemma OfferedMeans(c: State, id: NodeId)
    requires Offered(c, id, {3, id})
    ensures var s, f := c.nodes[id], c.nodes[3];
            s.role.Leader? && f == NodeState(s.term, f.votedFor, s.log, 0, Follower)
  {
  }

  /** A node with one entry wins a term and commits the entry, whatever term it is of. */
  lemma ElectAndCommit(g: Guards, t: Trace, id: NodeId) returns (t': Trace)
    requires Reached(g, t) && id in {1, 2} && !Last(t).nodes[id].role.Leader?
    requires var s, f := Last(t).nodes[id], Last(t).nodes[3];
             && f.term <= s.term
             && |s.log| == 2 && s.log[0] == SENTINEL && s.commit == 0
             && f.commit == 0 && 1 <= |f.log| <= 2 && f.log[0] == SENTINEL && s.log[1].leaderTerm > 0
             && (|f.log| == 2 ==> f.log[1].leaderTerm < s.log[1].leaderTerm)
             && Allows(g, s.log[1].leaderTerm, s.term + 1)
    ensures Reached(g, t') && Last(t).net <= Last(t').net
    ensures forall i | i in {1, 2} && i != id :: Last(t').nodes[i] == Last(t).nodes[i]
    ensures var s, s', f := Last(t).nodes[id], Last(t').nodes[id], Last(t').nodes[3];
            && s'.commit == 1 && s'.log == s.log && s'.term == s.term + 1
            && f.term == s.term + 1 && f.log == s.log && f.commit == 0
    ensures var s := Last(t).nodes[id];
            Packet(id, Third(id, 3), VoteReq(VoteRequestOf(s.(term := s.term + 1), id))) in Last(t').net
  {
    hide Path, AllQuiet;
    var t1 := ElectWith(g, t, id, 3);
    assert Lagging(Last(t1), id, 2);
    t' := ReplicateAndCommit(g, t1, id);
  }
}
