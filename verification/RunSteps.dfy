/** Single actions and single votes as steps that build up a run, from any state on. */
module RunSteps {
  import opened Options
  import opened Messages
  import opened NodeSpec
  import opened Cluster

  function Last(t: Trace): State
    requires t.states != []
  {
    t.states[|t.states| - 1]
  }

  /** The source never starts an election in a tick that began as leader. */
  predicate NoLeaderTimesOut(t: Trace)
    requires |t.states| == |t.actions| + 1
  {
    forall i | 0 <= i < |t.actions| && t.actions[i].Timeout? && t.actions[i].id in t.states[i].nodes ::
      !t.states[i].nodes[t.actions[i].id].role.Leader?
  }

  /** The steps of a run, whatever state they start from. */
  ghost predicate Path(g: Guards, t: Trace) {
    && |t.states| == |t.actions| + 1
    && (forall i | 0 <= i < |t.actions| :: StepOk(g, t.states[i], t.actions[i], t.states[i + 1]))
    && NoLeaderTimesOut(t)
  }

  /** A path that ends in `Last(t)`. */
  ghost predicate RunsTo(g: Guards, t: Trace) {
    Path(g, t) && t.states != [] && Ids(Last(t)) == t.ids && LogsNonempty(Last(t))
  }

  /** Nothing new is appended and nothing committed by the rule of leaders. */
  predicate AllQuiet(t: Trace) {
    forall a | a in t.actions :: !a.Append? && !a.Commit?
  }

  /** `t'` has the nodes of `t` and starts where it does. */
  predicate Continues(t: Trace, t': Trace) {
    && t'.ids == t.ids && t.states != [] && t'.states != [] && t'.states[0] == t.states[0]
    && (AllQuiet(t) ==> AllQuiet(t'))
  }

  /** The path that has not left `c`. */
  function At(ids: set<NodeId>, c: State): Trace {
    Trace(ids, [c], [])
  }

  lemma Start(g: Guards, ids: set<NodeId>) returns (t: Trace)
    ensures RunsTo(g, t) && t.ids == ids && Last(t) == Init(ids) && t.states[0] == Init(ids)
  {
    t := At(ids, Init(ids));
  }

  lemma PathIsRun(g: Guards, t: Trace)
    requires RunsTo(g, t) && t.states[0] == Init(t.ids)
    ensures Run(g, t) && NoLeaderTimesOut(t)
  {
  }

  lemma Then(g: Guards, t: Trace, a: Action) returns (t': Trace)
    requires RunsTo(g, t) && Enabled(Last(t), a) && Obeys(g, Last(t), a)
    requires LogsNonempty(Next(Last(t), a)) && Ids(Next(Last(t), a)) == t.ids
    requires a.Timeout? ==> !Last(t).nodes[a.id].role.Leader?
    ensures RunsTo(g, t') && t'.ids == t.ids && t'.states[0] == t.states[0] && Last(t') == Next(Last(t), a)
    ensures !a.Append? && !a.Commit? ==> Continues(t, t')
  {
    hide LogsNonempty, Next, Obeys, Enabled;
    t' := Trace(t.ids, t.states + [Next(Last(t), a)], t.actions + [a]);
    forall i | 0 <= i < |t'.actions| ensures StepOk(g, t'.states[i], t'.actions[i], t'.states[i + 1]) {
      if i < |t.actions| {
        assert StepOk(g, t.states[i], t.actions[i], t.states[i + 1]);
      }
    }
  }

  // Single actions, described by the nodes and the packets only

  lemma ThenTimeout(g: Guards, t: Trace, id: NodeId) returns (t': Trace)
    requires RunsTo(g, t) && id in t.ids && !Last(t).nodes[id].role.Leader?
    ensures RunsTo(g, t') && Continues(t, t')
    ensures var c, c' := Last(t), Last(t'); var s := BecomeCandidate(c.nodes[id], id);
            c'.nodes == c.nodes[id := s] && c'.net == c.net + VoteRequests(s, id, t.ids)
  {
    hide Path, AllQuiet;
    t' := Then(g, t, Timeout(id));
  }

  lemma ThenVoteReq(g: Guards, t: Trace, p: Packet) returns (t': Trace)
    requires RunsTo(g, t) && p in Last(t).net && p.to in t.ids && p.body.VoteReq?
    requires g.oneVote ==> G1(Last(t), Deliver(p))
    ensures RunsTo(g, t') && Continues(t, t')
    ensures var c, c' := Last(t), Last(t'); var (s, resp) := HandleVoteReq(c.nodes[p.to], p.body.voteReq);
            c'.nodes == c.nodes[p.to := s] && c'.net == c.net + {Packet(p.to, p.from, VoteResp(resp))}
  {
    hide Path, AllQuiet;
    t' := Then(g, t, Deliver(p));
  }

  lemma ThenVoteResp(g: Guards, t: Trace, p: Packet) returns (t': Trace)
    requires RunsTo(g, t) && p in Last(t).net && p.to in t.ids && p.body.VoteResp?
    ensures RunsTo(g, t') && Continues(t, t')
    ensures var c, c' := Last(t), Last(t'); var s := HandleVoteResp(c.nodes[p.to], p.body.voteResp, p.from, t.ids);
            && c'.nodes == c.nodes[p.to := s] && c.net <= c'.net
            && (Wins(SeeTerm(c.nodes[p.to], p.body.voteResp.currentTerm), p.body.voteResp, p.from, |t.ids|) ==>
                  AppendRequests(s, p.to, t.ids) <= c'.net)
  {
    hide Path, AllQuiet;
    t' := Then(g, t, Deliver(p));
  }

  lemma ThenAppendReq(g: Guards, t: Trace, p: Packet) returns (t': Trace)
    requires RunsTo(g, t) && p in Last(t).net && p.to in t.ids && p.body.AppendReq?
    ensures RunsTo(g, t') && Continues(t, t')
    ensures var c, c' := Last(t), Last(t'); var (s, resp) := HandleAppendReq(c.nodes[p.to], p.body.appendReq);
            c'.nodes == c.nodes[p.to := s] && c'.net == c.net + {Packet(p.to, p.from, AppendResp(resp))}
  {
    hide Path, AllQuiet;
    t' := Then(g, t, Deliver(p));
  }

  lemma ThenAppendResp(g: Guards, t: Trace, p: Packet) returns (t': Trace)
    requires RunsTo(g, t) && p in Last(t).net && p.to in t.ids && p.body.AppendResp?
    requires Obeys(g, Last(t), Deliver(p))
    ensures RunsTo(g, t') && Continues(t, t')
    ensures var c, c' := Last(t), Last(t');
            c'.nodes == c.nodes[p.to := HandleAppendResp(c.nodes[p.to], p.body.appendResp, p.from)] && c'.net == c.net
  {
    hide Path, AllQuiet;
    t' := Then(g, t, Deliver(p));
  }

  /** A confirmation of the leader's term, whatever the guards. */
  lemma Hear(g: Guards, t: Trace, p: Packet) returns (t': Trace)
    requires RunsTo(g, t) && p in Last(t).net && p.to in t.ids && p.body.AppendResp?
    requires p.body.appendResp.currentTerm == Last(t).nodes[p.to].term && p.body.appendResp.matchedUntil.Some?
    ensures RunsTo(g, t') && Continues(t, t') && Last(t').net == Last(t).net
    ensures var n := Last(t).nodes; Last(t').nodes == n[p.to := HandleAppendResp(n[p.to], p.body.appendResp, p.from)]
    ensures Last(t').nodes[p.to].term == Last(t).nodes[p.to].term
  {
    hide Path, AllQuiet;
    t' := ThenAppendResp(g, t, p);
  }

  lemma ThenReplicate(g: Guards, t: Trace, id: NodeId) returns (t': Trace)
    requires RunsTo(g, t) && Enabled(Last(t), Replicate(id))
    ensures RunsTo(g, t') && Continues(t, t')
    ensures var c, c' := Last(t), Last(t');
            c'.nodes == c.nodes && c'.net == c.net + AppendRequests(c.nodes[id], id, t.ids)
  {
    hide Path, AllQuiet;
    t' := Then(g, t, Replicate(id));
    assert Last(t').nodes == Last(t).nodes;
  }

  lemma ThenAppend(g: Guards, t: Trace, id: NodeId, commands: seq<Command>) returns (t': Trace)
    requires RunsTo(g, t) && id in t.ids && Last(t).nodes[id].role.Leader?
    ensures RunsTo(g, t') && t'.ids == t.ids && t'.states[0] == t.states[0]
    ensures Last(t').nodes == Last(t).nodes[id := AppendCommands(Last(t).nodes[id], commands)]
    ensures Last(t').net == Last(t).net
  {
    hide Path, AllQuiet;
    t' := Then(g, t, Append(id, commands));
  }

  lemma ThenCommit(g: Guards, t: Trace, id: NodeId) returns (t': Trace)
    requires RunsTo(g, t) && Enabled(Last(t), Commit(id)) && Obeys(g, Last(t), Commit(id))
    ensures RunsTo(g, t') && t'.ids == t.ids && t'.states[0] == t.states[0]
    ensures Last(t').nodes == Last(t).nodes[id := CommitIfPossible(Last(t).nodes[id], |t.ids|)]
    ensures Last(t').net == Last(t).net
  {
    hide Path, AllQuiet, HighestHeld;
    t' := Then(g, t, Commit(id));
  }

  // Elections

  /** Node `id`, a candidate without votes, collects its own vote. */
  lemma VoteForSelf(g: Guards, t: Trace, id: NodeId) returns (t': Trace)
    requires RunsTo(g, t) && id in t.ids && |t.ids| > 1
    requires var s := Last(t).nodes[id];
             s.role == Candidate({}) && s.votedFor == Some(id)
             && Packet(id, id, VoteReq(VoteRequestOf(s, id))) in Last(t).net
    ensures RunsTo(g, t') && Continues(t, t') && Last(t).net <= Last(t').net
    ensures Last(t').nodes == Last(t).nodes[id := Last(t).nodes[id].(role := Candidate({id}))]
  {
    hide Path, AllQuiet;
    var s := Last(t).nodes[id];
    var t1 := ThenVoteReq(g, t, Packet(id, id, VoteReq(VoteRequestOf(s, id))));
    var grant := Packet(id, id, VoteResp(RequestVoteResponse(s.term, true, s.term)));
    assert grant in Last(t1).net && Last(t1).nodes[id] == s;
    t' := ThenVoteResp(g, t1, grant);
    assert |{} + {id}| == 1 by { assert {} + {id} == {id}; }
    assert ({} + {id}) == {id};
  }

  /** A node times out and asks everyone for a vote. */
  lemma AskVotes(g: Guards, t: Trace, id: NodeId) returns (t': Trace)
    requires RunsTo(g, t) && id in t.ids && !Last(t).nodes[id].role.Leader?
    ensures RunsTo(g, t') && Continues(t, t') && Last(t).net <= Last(t').net
    ensures var s := BecomeCandidate(Last(t).nodes[id], id);
            && Last(t').nodes == Last(t).nodes[id := s]
            && forall to | to in t.ids :: Packet(id, to, VoteReq(VoteRequestOf(s, id))) in Last(t').net
  {
    hide Path, AllQuiet;
    t' := ThenTimeout(g, t, id);
    var s := BecomeCandidate(Last(t).nodes[id], id);
    forall to | to in t.ids ensures Packet(id, to, VoteReq(VoteRequestOf(s, id))) in Last(t').net {
      assert Packet(id, to, VoteReq(VoteRequestOf(s, id))) in VoteRequests(s, id, t.ids);
    }
  }

  /** A node of an earlier term turns a candidate down, but follows its term from then on. */
  lemma StepDown(g: Guards, t: Trace, id: NodeId, from: NodeId, req: RequestVoteRequest) returns (t': Trace)
    requires RunsTo(g, t) && id in t.ids && Packet(from, id, VoteReq(req)) in Last(t).net
    requires var s := Last(t).nodes[id];
             s.term < req.candidateTerm && !UpToDate(req.lastLogTerm, req.lastLogIndex, s.log)
    ensures RunsTo(g, t') && Continues(t, t') && Last(t).net <= Last(t').net
    ensures var s := Last(t).nodes[id];
            Last(t').nodes == Last(t).nodes[id := NodeState(req.candidateTerm, None, s.log, s.commit, Follower)]
  {
    hide Path, AllQuiet;
    t' := ThenVoteReq(g, t, Packet(from, id, VoteReq(req)));
  }

  // Replication

  /** The leader's request to `to` starts inside what both logs share, and `to` lacks the rest. */
  predicate CanCopy(s: NodeState, f: NodeState, to: NodeId) {
    && SendDefined(s, to) && s.role.Leader? && s.commit <= f.commit
    && (f.term < s.term || (f.term == s.term && f.role.Follower?))
    && var next := Lookup(s.role.nextIndex, to);
    && next <= |f.log| && f.log[..next] == s.log[..next] && !(s.log <= f.log)
  }

  predicate SendsAll(s: NodeState, ids: set<NodeId>) {
    forall to | to in ids :: SendDefined(s, to)
  }

  function Copied(f: NodeState, s: NodeState): NodeState {
    NodeState(s.term, if f.term < s.term then None else f.votedFor, s.log, f.commit, Follower)
  }

  function Confirmation(from: NodeId, id: NodeId, s: NodeState): Packet
    requires s.log != []
  {
    Packet(from, id, AppendResp(AppendEntriesResponse(s.term, Some(LastIndex(s.log)))))
  }

  lemma CopyResult(s: NodeState, f: NodeState, id: NodeId, to: NodeId)
    requires CanCopy(s, f, to)
    ensures HandleAppendReq(f, AppendRequestFor(s, id, to))
            == (Copied(f, s), AppendEntriesResponse(s.term, Some(LastIndex(s.log))))
  {
    var next := Lookup(s.role.nextIndex, to);
    assert s.log[..next] + s.log[next..] == s.log;
    assert f.log[next - 1] == f.log[..next][next - 1] && s.log[next - 1] == s.log[..next][next - 1];
  }

  /** The leader sends its log to `to`, which takes it over. */
  lemma Copy(g: Guards, t: Trace, id: NodeId, to: NodeId) returns (t': Trace)
    requires RunsTo(g, t) && id in t.ids && to in t.ids && id != to
    requires SendsAll(Last(t).nodes[id], t.ids) && CanCopy(Last(t).nodes[id], Last(t).nodes[to], to)
    ensures RunsTo(g, t') && Continues(t, t') && Last(t).net <= Last(t').net
    ensures Last(t').nodes == Last(t).nodes[to := Copied(Last(t).nodes[to], Last(t).nodes[id])]
    ensures Last(t).nodes[id].log != [] && Confirmation(to, id, Last(t).nodes[id]) in Last(t').net
  {
    hide Path, AllQuiet, HandleAppendReq;
    var s := Last(t).nodes[id];
    var t1 := ThenReplicate(g, t, id);
    var p := Packet(id, to, AppendReq(AppendRequestFor(s, id, to)));
    assert p in AppendRequests(s, id, t.ids);
    CopyResult(s, Last(t).nodes[to], id, to);
    t' := ThenAppendReq(g, t1, p);
  }

  lemma OwnResult(s: NodeState, id: NodeId)
    requires SendDefined(s, id)
    ensures HandleAppendReq(s, AppendRequestFor(s, id, id))
         == (s, AppendEntriesResponse(s.term, Some(LastIndex(s.log))))
  {
    var next := Lookup(s.role.nextIndex, id);
    assert s.log[..next] + s.log[next..] == s.log;
  }

  /** The leader confirms its own log through its own mailbox. */
  lemma ConfirmOwn(g: Guards, t: Trace, id: NodeId) returns (t': Trace)
    requires RunsTo(g, t) && id in t.ids && SendsAll(Last(t).nodes[id], t.ids)
    requires Last(t).nodes[id].role.Leader?
    ensures RunsTo(g, t') && Continues(t, t') && Last(t).net <= Last(t').net && Last(t').nodes == Last(t).nodes
    ensures Last(t).nodes[id].log != [] && Confirmation(id, id, Last(t).nodes[id]) in Last(t').net
  {
    hide Path, AllQuiet, HandleAppendReq;
    var s := Last(t).nodes[id];
    assert SendDefined(s, id);
    var t1 := ThenReplicate(g, t, id);
    var p := Packet(id, id, AppendReq(AppendRequestFor(s, id, id)));
    assert p in AppendRequests(s, id, t.ids);
    OwnResult(s, id);
    t' := ThenAppendReq(g, t1, p);
    assert Last(t').nodes == Last(t).nodes;
  }
}
