/** What the properties behind G1, G2 and G3 need exactly. For G1 and G3 it is the guard: an
    action keeps the property if and only if it obeys it. For G2 it is the guard, or an old
    confirmation that has since been given again. */
module GuardsExact {
  import opened Messages
  import opened NodeSpec
  import opened Cluster
  import opened CoreInvariant
  import opened CoreFrame
  import opened CoreStep
  import opened LeaderStep
  import opened LeaderInvariant
  import opened RunInvariants

  /** No granted vote in the network contradicts the first vote its sender cast in the term,
      where running for a term counts as a vote for oneself. */
  ghost predicate OneVotePerTerm(c: State) {
    forall p | p in c.net && p.body.VoteResp? && p.body.voteResp.voteGranted ::
      VotedFor(c.hist, p.from, p.body.voteResp.candidateTerm, p.to)
  }

  lemma CoreHasOneVote(c: State)
    requires Core(c)
    ensures OneVotePerTerm(c)
  {
    hide Core;
    forall p | p in c.net && p.body.VoteResp? && p.body.voteResp.voteGranted
      ensures VotedFor(c.hist, p.from, p.body.voteResp.candidateTerm, p.to) {
      CorePacket(c, p);
    }
  }

  /** A sitting leader that grants its term to another node votes twice in it. */
  lemma SecondVote(c: State, p: Packet)
    requires Core(c) && Enabled(c, Deliver(p)) && !G1(c, Deliver(p))
    ensures !OneVotePerTerm(Next(c, Deliver(p)))
  {
    var s, req := c.nodes[p.to], p.body.voteReq;
    assert RoleOk(c.hist, Ids(c), p.to, s) by { CoreNode(c, p.to); }
    assert PacketOk(c.hist, Ids(c), p) by { CorePacket(c, p); }
    hide Core, LogsNonempty;
    var c' := Next(c, Deliver(p));
    var grant := Packet(p.to, p.from, VoteResp(RequestVoteResponse(s.term, true, s.term)));
    assert grant in c'.net;
    assert VotedFor(c'.hist, p.to, s.term, p.to);
  }

  lemma G1IsExact(c: State, a: Action)
    requires Core(c) && Enabled(c, a)
    ensures OneVotePerTerm(Next(c, a)) <==> G1(c, a)
  {
    hide Core, OneVotePerTerm, LogsNonempty;
    if G1(c, a) {
      StepKeepsCore(c, a);
      CoreHasOneVote(Next(c, a)) by { CoreKeptCore(c, Next(c, a)); }
    } else {
      SecondVote(c, a.packet);
    }
  }

  lemma CoreKeptCore(c: State, c': State)
    requires CoreKept(c, c')
    ensures Core(c')
  {
  }

  /** The confirmation in `p` is an old one, but the sender has since confirmed the same index
      in the leader's own term. */
  predicate StaleButTrue(c: State, p: Packet)
    requires p.to in c.nodes && p.body.AppendResp?
  {
    var s, resp := c.nodes[p.to], p.body.appendResp;
    resp.matchedUntil.Some? && Confirmed(c.hist, p.from, s.term, resp.matchedUntil.value)
  }

  lemma StaleReplyCounts(c: State, p: Packet)
    requires Matched(c) && Enabled(c, Deliver(p)) && !G2(c, Deliver(p))
    ensures Matched(Next(c, Deliver(p))) <==> StaleButTrue(c, p)
  {
    hide LogsNonempty;
    var s, k := c.nodes[p.to], p.body.appendResp.matchedUntil.value;
    var s' := HandleAppendResp(s, p.body.appendResp, p.from);
    assert MatchesOk(c.hist, s);
    assert s'.role.matchIndex == s.role.matchIndex[p.from := k];
    assert Next(c, Deliver(p)) == Update(c, p.to, s', {}, c.hist);
    assert Next(c, Deliver(p)).nodes[p.to] == s';
    if StaleButTrue(c, p) {
      forall f | f in s'.role.matchIndex ensures Confirmed(c.hist, f, s'.term, s'.role.matchIndex[f]) {
        assert f in s.role.matchIndex ==> Confirmed(c.hist, f, s.term, s.role.matchIndex[f]);
      }
      MatchedAfter(c, p.to, s', {}, c.hist);
    } else {
      assert p.from in s'.role.matchIndex && !Confirmed(c.hist, p.from, s'.term, s'.role.matchIndex[p.from]);
      assert !MatchesOk(c.hist, s');
    }
  }

  /** Match indices stay backed by confirmations of the leader's term exactly when no old
      confirmation raises one, unless the sender has given that confirmation again. */
  lemma G2IsExact(c: State, a: Action)
    requires Core(c) && Matched(c) && Enabled(c, a)
    ensures Matched(Next(c, a)) <==> G2(c, a) || StaleButTrue(c, a.packet)
  {
    hide Core, LogsNonempty, Matched, StaleButTrue;
    if G2(c, a) {
      StepKeepsMatched(c, a);
    } else {
      StaleReplyCounts(c, a.packet);
    }
  }

  lemma RejectionAtOne(s: NodeState, resp: AppendEntriesResponse, from: NodeId)
    requires s.role.Leader? && resp.matchedUntil.None? && resp.currentTerm <= s.term
    requires from in s.role.nextIndex && s.role.nextIndex[from] == 1
    ensures !NextsOk(HandleAppendResp(s, resp, from))
  {
    var s' := HandleAppendResp(s, resp, from);
    assert s'.role.nextIndex[from] == 0;
  }

  /** A rejection handled at next index 1 takes it out of the log. */
  lemma RejectionUnderflows(c: State, p: Packet)
    requires Core(c) && Enabled(c, Deliver(p)) && !G3(c, Deliver(p)) && NextsInRange(c)
    ensures !NextsInRange(Next(c, Deliver(p)))
  {
    hide Core, NodeOk, HistOk, LogsNonempty;
    var s, resp := c.nodes[p.to], p.body.appendResp;
    CorePacket(c, p);
    CoreNode(c, p.to);
    LeaderKeys(c.hist, Ids(c), p.to, s);
    assert NextsOk(s);
    RejectionAtOne(s, resp, p.from);
    assert Next(c, Deliver(p)).nodes[p.to] == HandleAppendResp(s, resp, p.from);
  }

  lemma G3IsExact(c: State, a: Action)
    requires Core(c) && Matched(c) && NextsInRange(c) && Enabled(c, a) && G1(c, a) && G2(c, a)
    ensures NextsInRange(Next(c, a)) <==> G3(c, a)
  {
    hide Core, Matched, NextsInRange, LogsNonempty;
    if G3(c, a) {
      StepKeepsNexts(c, a);
    } else {
      RejectionUnderflows(c, a.packet);
    }
  }

  // The same at every moment of every run

  lemma OneVoteIffG1(g: Guards, t: Trace, i: nat, a: Action)
    requires Run(g, t) && g.oneVote && i < |t.states| && Enabled(t.states[i], a)
    ensures OneVotePerTerm(t.states[i]) && (OneVotePerTerm(Next(t.states[i], a)) <==> G1(t.states[i], a))
  {
    RunCore(g, t, i);
    hide Core, Run, LogsNonempty;
    CoreHasOneVote(t.states[i]);
    G1IsExact(t.states[i], a);
  }

  lemma MatchedIffG2(g: Guards, t: Trace, i: nat, a: Action)
    requires Run(g, t) && g.oneVote && g.freshReply && i < |t.states| && Enabled(t.states[i], a)
    ensures Matched(t.states[i])
    ensures Matched(Next(t.states[i], a)) <==> G2(t.states[i], a) || StaleButTrue(t.states[i], a.packet)
  {
    RunCore(g, t, i);
    RunMatched(g, t, i);
    hide Core, Matched, Run, LogsNonempty;
    G2IsExact(t.states[i], a);
  }

  lemma InRangeIffG3(g: Guards, t: Trace, i: nat, a: Action)
    requires Run(g, t) && g.oneVote && g.freshReply && g.nextFloor && i < |t.states| && Enabled(t.states[i], a)
    requires G1(t.states[i], a) && G2(t.states[i], a)
    ensures NextsInRange(t.states[i]) && (NextsInRange(Next(t.states[i], a)) <==> G3(t.states[i], a))
  {
    RunCore(g, t, i);
    RunMatched(g, t, i);
    RunNexts(g, t, i);
    hide Core, Matched, NextsInRange, Run, LogsNonempty;
    G3IsExact(t.states[i], a);
  }
}
