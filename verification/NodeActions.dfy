/** A cluster action seen from the node that performs it. */
module NodeActions {
  import opened Messages
  import opened NodeSpec
  import opened Cluster
  import opened Clients

  predicate ActDefined(s: NodeState, ids: set<NodeId>, a: Action) {
    && s.log != []
    && match a
       case Deliver(_) => true
       case Timeout(_) => true
       case Replicate(_) => s.role.Leader? && forall id | id in ids :: SendDefined(s, id)
       case Commit(_) => s.role.Leader?
       case Append(_, _) => s.role.Leader?
  }

  /** The node's new state and what it sends. */
  function Act(s: NodeState, me: NodeId, ids: set<NodeId>, a: Action): (NodeState, set<Packet>)
    requires ActDefined(s, ids, a)
  {
    match a
    case Deliver(p) => Receive(s, me, ids, p)
    case Timeout(_) => var s' := BecomeCandidate(s, me); (s', VoteRequests(s', me, ids))
    case Replicate(_) => (s, AppendRequests(s, me, ids))
    case Commit(_) => (CommitIfPossible(s, |ids|), {})
    case Append(_, commands) => (AppendCommands(s, commands), {})
  }

  function Receive(s: NodeState, me: NodeId, ids: set<NodeId>, p: Packet): (NodeState, set<Packet>)
    requires s.log != []
  {
    match p.body
    case AppendReq(req) =>
      var (s', resp) := HandleAppendReq(s, req);
      (s', {Packet(me, p.from, AppendResp(resp))})
    case VoteReq(req) =>
      var (s', resp) := HandleVoteReq(s, req);
      (s', {Packet(me, p.from, VoteResp(resp))})
    case AppendResp(resp) => (HandleAppendResp(s, resp, p.from), {})
    case VoteResp(resp) =>
      var s' := HandleVoteResp(s, resp, p.from, ids);
      (s', if Wins(SeeTerm(s, resp.currentTerm), resp, p.from, |ids|) then AppendRequests(s', me, ids) else {})
  }

  /** An action of the cluster is that action of its node, and touches no other node. */
  lemma NextIsAct(c: State, a: Action)
    requires Enabled(c, a)
    ensures ActDefined(c.nodes[Actor(a)], Ids(c), a)
    ensures var (s, out) := Act(c.nodes[Actor(a)], Actor(a), Ids(c), a);
            Next(c, a).nodes == c.nodes[Actor(a) := s] && Next(c, a).net == c.net + out
  {
    hide HighestHeld;
    assert c.nodes[Actor(a)].log != [];
    assert c.net + {} == c.net;
  }

  // A node together with what its clients wait for

  datatype Local = Local(node: NodeState, desk: Desk)

  /** What an action does to the client commands at the node. */
  function DeskAct(s: NodeState, d: Desk, ids: set<NodeId>, a: Action): Desk
    requires ActDefined(s, ids, a)
  {
    match a
    case Deliver(p) =>
      if p.body.AppendReq? then
        var req := p.body.appendReq;
        var s1 := SeeTerm(s, req.leaderTerm);
        if req.leaderTerm < s1.term || s1.role.Leader? then d else Redirect(d, req.leaderId)
      else d
    case Commit(_) => Persist(d, s.commit, CommitIfPossible(s, |ids|).commit)
    case Append(_, _) => Accept(d, |s.log|)
    case _ => d
  }

  lemma LocalIsDefined(l: Local, ids: set<NodeId>, a: Action)
    requires LocalDefined(l, ids, a)
    ensures ActDefined(l.node, ids, a)
  {
  }

  /** A leader appends exactly the commands in its queue. */
  predicate LocalDefined(l: Local, ids: set<NodeId>, a: Action) {
    && ActDefined(l.node, ids, a)
    && (a.Append? ==> a.commands == Commands(l.desk.incoming))
  }

  function LocalAct(l: Local, me: NodeId, ids: set<NodeId>, a: Action): Local
    requires LocalDefined(l, ids, a)
  {
    Local(Act(l.node, me, ids, a).0, DeskAct(l.node, l.desk, ids, a))
  }

  lemma AppendReqAct(l: Local, me: NodeId, ids: set<NodeId>, p: Packet)
    requires p.body.AppendReq? && l.node.log != []
    ensures var req := p.body.appendReq; var (s, resp) := HandleAppendReq(l.node, req);
            var s1 := SeeTerm(l.node, req.leaderTerm); var a := Deliver(p);
            && LocalDefined(l, ids, a)
            && LocalAct(l, me, ids, a) == Local(s, if req.leaderTerm < s1.term || s1.role.Leader? then l.desk
                                                   else Redirect(l.desk, req.leaderId))
            && Act(l.node, me, ids, a).1 == {Packet(me, p.from, AppendResp(resp))}
  {
  }

  lemma VoteReqAct(l: Local, me: NodeId, ids: set<NodeId>, p: Packet)
    requires p.body.VoteReq? && l.node.log != []
    ensures var (s, resp) := HandleVoteReq(l.node, p.body.voteReq); var a := Deliver(p);
            && LocalDefined(l, ids, a) && LocalAct(l, me, ids, a) == Local(s, l.desk)
            && Act(l.node, me, ids, a).1 == {Packet(me, p.from, VoteResp(resp))}
  {
  }

  lemma AppendRespAct(l: Local, me: NodeId, ids: set<NodeId>, p: Packet)
    requires p.body.AppendResp? && l.node.log != []
    ensures var a := Deliver(p);
            && LocalDefined(l, ids, a)
            && LocalAct(l, me, ids, a) == Local(HandleAppendResp(l.node, p.body.appendResp, p.from), l.desk)
            && Act(l.node, me, ids, a).1 == {}
  {
  }

  lemma VoteRespAct(l: Local, me: NodeId, ids: set<NodeId>, p: Packet)
    requires p.body.VoteResp? && l.node.log != []
    ensures var resp := p.body.voteResp; var s := HandleVoteResp(l.node, resp, p.from, ids); var a := Deliver(p);
            && LocalDefined(l, ids, a) && LocalAct(l, me, ids, a) == Local(s, l.desk)
            && Act(l.node, me, ids, a).1
               == if Wins(SeeTerm(l.node, resp.currentTerm), resp, p.from, |ids|)
                  then AppendRequests(s, me, ids) else {}
  {
  }

  lemma ReplicateAct(l: Local, me: NodeId, ids: set<NodeId>)
    requires l.node.role.Leader? && l.node.log != [] && forall id | id in ids :: SendDefined(l.node, id)
    ensures var a := Replicate(me);
            && LocalDefined(l, ids, a) && LocalAct(l, me, ids, a) == l
            && Act(l.node, me, ids, a).1 == AppendRequests(l.node, me, ids)
  {
  }

  lemma AppendAct(l: Local, me: NodeId, ids: set<NodeId>)
    requires l.node.role.Leader? && l.node.log != []
    ensures var commands := Commands(l.desk.incoming); var a := Append(me, commands);
            && LocalDefined(l, ids, a) && Act(l.node, me, ids, a).1 == {}
            && LocalAct(l, me, ids, a) == Local(AppendCommands(l.node, commands), Accept(l.desk, |l.node.log|))
  {
  }

  lemma CommitAct(l: Local, me: NodeId, ids: set<NodeId>)
    requires l.node.role.Leader? && l.node.log != []
    ensures var s := CommitIfPossible(l.node, |ids|); var a := Commit(me);
            && LocalDefined(l, ids, a) && Act(l.node, me, ids, a).1 == {}
            && LocalAct(l, me, ids, a) == Local(s, Persist(l.desk, l.node.commit, s.commit))
  {
  }

  lemma TimeoutAct(l: Local, me: NodeId, ids: set<NodeId>)
    requires l.node.log != []
    ensures var s := BecomeCandidate(l.node, me); var a := Timeout(me);
            LocalDefined(l, ids, a) && LocalAct(l, me, ids, a) == Local(s, l.desk)
            && Act(l.node, me, ids, a).1 == VoteRequests(s, me, ids)
  {
  }

  /** Several actions of one node, one after another, take it from `l` to `l'` and send `out`. */
  ghost predicate ActsTo(l: Local, me: NodeId, ids: set<NodeId>, actions: seq<Action>, l': Local, out: set<Packet>)
    decreases |actions|
  {
    if actions == [] then l' == l && out == {}
    else exists l1, out1 :: ActsThen(l, me, ids, actions, l1, out1, l', out)
  }

  ghost predicate ActsThen(l: Local, me: NodeId, ids: set<NodeId>, actions: seq<Action>,
                           l1: Local, out1: set<Packet>, l': Local, out: set<Packet>)
    requires actions != []
    decreases |actions|, 0
  {
    var k := |actions| - 1;
    && ActsTo(l, me, ids, actions[..k], l1, out1)
    && LocalDefined(l1, ids, actions[k])
    && LocalAct(l1, me, ids, actions[k]) == l' && out == out1 + Act(l1.node, me, ids, actions[k]).1
  }

  lemma OneMoreAct(l: Local, me: NodeId, ids: set<NodeId>, actions: seq<Action>, l1: Local, out1: set<Packet>,
                   a: Action)
    requires ActsTo(l, me, ids, actions, l1, out1) && LocalDefined(l1, ids, a)
    ensures ActsTo(l, me, ids, actions + [a], LocalAct(l1, me, ids, a), out1 + Act(l1.node, me, ids, a).1)
  {
    assert (actions + [a])[..|actions|] == actions;
    assert ActsThen(l, me, ids, actions + [a], l1, out1, LocalAct(l1, me, ids, a), out1 + Act(l1.node, me, ids, a).1);
  }

  lemma {:induction false} ActsCompose(l: Local, me: NodeId, ids: set<NodeId>,
                                       as1: seq<Action>, l1: Local, out1: set<Packet>,
                                       as2: seq<Action>, l2: Local, out2: set<Packet>)
    requires ActsTo(l, me, ids, as1, l1, out1) && ActsTo(l1, me, ids, as2, l2, out2)
    ensures ActsTo(l, me, ids, as1 + as2, l2, out1 + out2)
    decreases |as2|
  {
    hide LocalAct, LocalDefined, Act;
    if as2 == [] {
      assert as1 + as2 == as1 && out1 + out2 == out1;
    } else {
      var k := |as2| - 1;
      var m, outM :| ActsThen(l1, me, ids, as2, m, outM, l2, out2);
      ActsCompose(l, me, ids, as1, l1, out1, as2[..k], m, outM);
      LocalIsDefined(m, ids, as2[k]);
      OneMoreAct(l, me, ids, as1 + as2[..k], m, out1 + outM, as2[k]);
      assert as1 + as2 == (as1 + as2[..k]) + [as2[k]];
      assert out1 + out2 == out1 + outM + Act(m.node, me, ids, as2[k]).1;
    }
  }

  /** A delivery never makes a leader or a follower a candidate, nor a follower a leader. */
  lemma DeliveryKeepsRole(l: Local, me: NodeId, ids: set<NodeId>, p: Packet)
    requires LocalDefined(l, ids, Deliver(p)) && !l.node.role.Candidate?
    ensures var l' := LocalAct(l, me, ids, Deliver(p));
            && !l'.node.role.Candidate? && (l'.node.role.Leader? ==> l.node.role.Leader? && l'.desk == l.desk)
  {
  }

  /** A leader that still leads after its mail has led all the time: nothing was taken from the queue
      of its clients. */
  lemma {:induction false} LeadingKeepsQueue(l: Local, me: NodeId, ids: set<NodeId>, actions: seq<Action>,
                                             l': Local, out: set<Packet>)
    requires ActsTo(l, me, ids, actions, l', out) && !l.node.role.Candidate?
    requires forall k | 0 <= k < |actions| :: actions[k].Deliver?
    ensures !l'.node.role.Candidate? && (l'.node.role.Leader? ==> l.node.role.Leader? && l'.desk == l.desk)
    decreases |actions|
  {
    if actions != [] {
      var k := |actions| - 1;
      var l1, out1 :| ActsThen(l, me, ids, actions, l1, out1, l', out);
      hide LocalAct, LocalDefined, Act;
      LeadingKeepsQueue(l, me, ids, actions[..k], l1, out1);
      DeliveryKeepsRole(l1, me, ids, actions[k].packet);
    }
  }

  /** The actions are all of node `me`, and all they deliver was sent. */
  predicate OwnActions(c: State, me: NodeId, actions: seq<Action>) {
    forall k | 0 <= k < |actions| ::
      Actor(actions[k]) == me && (actions[k].Deliver? ==> actions[k].packet in c.net)
  }

  /** `states` are visited from `c` on by performing `actions`, each enabled where the one before
      left the cluster. */
  predicate IsSegment(c: State, actions: seq<Action>, states: seq<State>) {
    && |states| == |actions| + 1 && states[0] == c
    && forall k | 0 <= k < |actions| ::
      Enabled(states[k], actions[k]) && states[k + 1] == Next(states[k], actions[k])
  }

  lemma SegmentExtends(c: State, actions: seq<Action>, states: seq<State>, a: Action)
    requires IsSegment(c, actions, states) && Enabled(states[|actions|], a)
    ensures IsSegment(c, actions + [a], states + [Next(states[|actions|], a)])
  {
    hide Enabled, Next;
    var actions', states' := actions + [a], states + [Next(states[|actions|], a)];
    forall k | 0 <= k < |actions'|
      ensures Enabled(states'[k], actions'[k]) && states'[k + 1] == Next(states'[k], actions'[k])
    {
      if k < |actions| {
        assert states'[k] == states[k] && states'[k + 1] == states[k + 1] && actions'[k] == actions[k];
      }
    }
  }

  /** One more action of node `me`, seen in the cluster. */
  lemma LandsAt(c: State, d: State, me: NodeId, l: Local, out: set<Packet>, a: Action)
    requires me in c.nodes && LogsNonempty(c)
    requires d.nodes == c.nodes[me := l.node] && d.net == c.net + out
    requires Actor(a) == me && LocalDefined(l, Ids(c), a) && (a.Deliver? ==> a.packet in c.net)
    ensures Enabled(d, a)
    ensures Next(d, a).nodes == c.nodes[me := LocalAct(l, me, Ids(c), a).node]
    ensures Next(d, a).net == c.net + (out + Act(l.node, me, Ids(c), a).1)
  {
    assert Ids(d) == Ids(c) && d.nodes[me] == l.node;
    NextIsAct(d, a);
    hide Next, Act, DeskAct;
    assert c.net + out + Act(l.node, me, Ids(c), a).1 == c.net + (out + Act(l.node, me, Ids(c), a).1);
  }

  /** Whatever one node does in several actions is a segment of a cluster run. */
  lemma {:induction false} ActsAreSegment(c: State, me: NodeId, desk: Desk, actions: seq<Action>,
                                          l': Local, out: set<Packet>)
    returns (states: seq<State>)
    requires me in c.nodes && LogsNonempty(c) && OwnActions(c, me, actions)
    requires ActsTo(Local(c.nodes[me], desk), me, Ids(c), actions, l', out)
    ensures IsSegment(c, actions, states) && |states| == |actions| + 1
    ensures states[|actions|].nodes == c.nodes[me := l'.node] && states[|actions|].net == c.net + out
    decreases |actions|
  {
    if actions == [] {
      states := [c];
      assert c.nodes[me := l'.node] == c.nodes && c.net + out == c.net;
    } else {
      var k := |actions| - 1;
      var l1, out1 :| ActsThen(Local(c.nodes[me], desk), me, Ids(c), actions, l1, out1, l', out);
      hide ActsTo, Act, Next, LocalAct, Enabled, LocalDefined, LogsNonempty, IsSegment;
      var before := ActsAreSegment(c, me, desk, actions[..k], l1, out1);
      LandsAt(c, before[k], me, l1, out1, actions[k]);
      SegmentExtends(c, actions[..k], before, actions[k]);
      states := before + [Next(before[k], actions[k])];
      assert actions[..k] + [actions[k]] == actions;
    }
  }

  // No log is ever empty

  /** No action empties a log, so requiring logs not to be empty keeps no action from happening. */
  lemma NextKeepsLogs(c: State, a: Action)
    requires Enabled(c, a)
    ensures Ids(Next(c, a)) == Ids(c) && LogsNonempty(Next(c, a))
  {
    NextIsAct(c, a);
    hide Next, HighestHeld;
  }

  lemma {:induction false} LogsNeverEmpty(g: Guards, t: Trace, i: nat)
    requires Run(g, t) && i < |t.states|
    ensures Ids(t.states[i]) == t.ids && LogsNonempty(t.states[i])
  {
    hide Run, Next, Enabled, Obeys;
    RunBegins(g, t);
    if i > 0 {
      LogsNeverEmpty(g, t, i - 1);
      StepAt(g, t, i - 1);
      NextKeepsLogs(t.states[i - 1], t.actions[i - 1]);
    }
  }
}
