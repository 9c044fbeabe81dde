/** Which entries a leader may commit: those of its own term and of the term right before, and no
    others. For every other pair of terms there is a run, with three nodes, in which one such
    commitment makes two nodes commit different commands at the same index. */
module OldCommit {
  import opened Options
  import opened Messages
  import opened NodeSpec
  import opened Cluster
  import opened CoreInvariant
  import opened CoreFrame
  import opened RunInvariants
  import opened RunSteps
  import opened Elections
  import opened Counterexamples
  import opened Safety

  /** All guards, but a leader of term `T` may also commit an entry of term `u`. */
  function Sparing(u: Term, T: Term): Guards {
    Guards(true, true, true, RecentTerm({(u, T)}))
  }

  /** A node in `c` and a node in `c'` agree on what each then knows to be committed. */
  ghost predicate Agree(c: State, c': State) {
    forall a, b, k: nat | a in c.nodes && b in c'.nodes && k <= c.nodes[a].commit && k <= c'.nodes[b].commit ::
      k < |c.nodes[a].log| && k < |c'.nodes[b].log| && c.nodes[a].log[k] == c'.nodes[b].log[k]
  }

  /** State machine safety, at the same and at different moments of every run. */
  ghost predicate AlwaysAgree(g: Guards) {
    forall t: Trace, i: nat, j: nat | Run(g, t) && i <= j < |t.states| :: Agree(t.states[i], t.states[j])
  }

  // Terms next to each other

  /** No leader commits an entry of term 0: that is the term of the sentinel at index 0 only. */
  lemma NewerThanSentinel(c: State, a: Action)
    requires Core(c) && Enabled(c, a) && a.Commit?
    requires CommitIfPossible(c.nodes[a.id], |Ids(c)|).commit != c.nodes[a.id].commit
    ensures c.nodes[a.id].log[CommitIfPossible(c.nodes[a.id], |Ids(c)|).commit].leaderTerm >= 1
  {
    assert NodeOk(c.hist, Ids(c), a.id, c.nodes[a.id]) && HistOk(c.hist, Ids(c)) by { CoreNode(c, a.id); }
    hide Core, LogsNonempty;
    var s := c.nodes[a.id];
    var k := CommitIfPossible(s, |Ids(c)|).commit;
    assert EntryOk(c.hist, s.log, k);
    assert ElectionOk(c.hist, Ids(c), s.log[k].leaderTerm);
  }

  lemma SparingNothing(u: Term, T: Term, t: Trace)
    requires (u == 0 || T <= u + 1) && Run(Sparing(u, T), t)
    ensures Run(Guards(true, true, true, RECENT), t)
  {
    hide StepOk, Sparing;
    RunBegins(Sparing(u, T), t);
    forall i | 0 <= i < |t.actions|
      ensures StepOk(Guards(true, true, true, RECENT), t.states[i], t.actions[i], t.states[i + 1])
    {
      SparingNothingIn(u, T, t, i);
    }
  }

  lemma SparingNothingIn(u: Term, T: Term, t: Trace, i: nat)
    requires (u == 0 || T <= u + 1) && Run(Sparing(u, T), t) && i < |t.actions|
    ensures StepOk(Guards(true, true, true, RECENT), t.states[i], t.actions[i], t.states[i + 1])
  {
    hide Core, Next, HighestHeld;
    var c, a := t.states[i], t.actions[i];
    StepAt(Sparing(u, T), t, i);
    RunCore(Sparing(u, T), t, i);
    if a.Commit? && CommitIfPossible(c.nodes[a.id], |Ids(c)|).commit != c.nodes[a.id].commit {
      NewerThanSentinel(c, a);
    }
  }

  lemma RecentAgree(t: Trace, i: nat, j: nat)
    requires Run(Guards(true, true, true, RECENT), t) && i <= j < |t.states|
    ensures Agree(t.states[i], t.states[j])
  {
    hide Run;
    var c, c' := t.states[i], t.states[j];
    forall a, b, k: nat | a in c.nodes && b in c'.nodes && k <= c.nodes[a].commit && k <= c'.nodes[b].commit
      ensures k < |c.nodes[a].log| && k < |c'.nodes[b].log| && c.nodes[a].log[k] == c'.nodes[b].log[k]
    {
      StateMachineSafety(Guards(true, true, true, RECENT), t, i, j, a, b, k);
      assert c.nodes[a].log[..k + 1][k] == c'.nodes[b].log[..k + 1][k];
    }
  }

  lemma NextTermIsSafe(u: Term, T: Term)
    requires u == 0 || T <= u + 1
    ensures AlwaysAgree(Sparing(u, T))
  {
    hide Run, Agree, Sparing;
    forall t: Trace, i: nat, j: nat | Run(Sparing(u, T), t) && i <= j < |t.states|
      ensures Agree(t.states[i], t.states[j])
    {
      SparingNothing(u, T, t);
      RecentAgree(t, i, j);
    }
  }

  // Terms further apart

  function X(u: Term): LogItem { LogItem("x", u) }
  function Y(u: Term): LogItem { LogItem("y", u + 1) }
  function Z(T: Term): LogItem { LogItem("z", T + 1) }

  /** Node 1 leads term `u` with an entry nobody else has, then node 2 leads the next term with
      another, and node 1 hears of it. */
  lemma TwoLoneEntries(g: Guards, u: Term) returns (t: Trace)
    requires u >= 1
    ensures Reached(g, t)
    ensures var n := Last(t).nodes;
            && n[1] == NodeState(u + 1, None, [SENTINEL, X(u)], 0, Follower)
            && n[2] == NodeState(u + 1, None, [SENTINEL, Y(u)], 0, n[2].role)
            && n[3] == NodeState(u + 1, Some(2), [SENTINEL], 0, Follower)
  {
    hide Path, AllQuiet;
    var t0 := Start(g, NODES);
    var t1 := CatchUp(g, t0, 1, u - 1);
    var t2 := ElectAndAppend(g, t1, 1, "x");
    var t3 := CatchUp(g, t2, 2, u);
    var t4 := ElectAndAppend(g, t3, 2, "y");
    t := StepDown(g, t4, 1, 2, RequestVoteRequest(u + 1, 2, 0, 0));
  }

  /** Node 1 commits its old entry in term `T`, and node 2 hears of it. */
  lemma OldIsCommitted(g: Guards, u: Term, T: Term) returns (t: Trace)
    requires u >= 1 && T >= u + 2 && Allows(g, u, T)
    ensures Reached(g, t)
    ensures var n := Last(t).nodes;
            && n[1].commit == 1 && n[1].log == [SENTINEL, X(u)] && n[1].term == T
            && n[2] == NodeState(T, None, [SENTINEL, Y(u)], 0, Follower)
            && n[3].term == T && n[3].log == [SENTINEL, X(u)] && n[3].commit == 0
  {
    hide Path, AllQuiet;
    var t1 := TwoLoneEntries(g, u);
    var t2 := CatchUp(g, t1, 1, T - 1);
    var t3 := ElectAndCommit(g, t2, 1);
    t := StepDown(g, t3, 2, 1, RequestVoteRequest(T, 1, 1, u));
  }

  /** Node 2 wins the next term and steps back to what node 3 shares with it. */
  lemma SecondStepsBack(g: Guards, t: Trace, u: Term, T: Term) returns (t': Trace)
    requires Reached(g, t) && u >= 1 && T >= u + 2
    requires var n := Last(t).nodes;
             && n[2] == NodeState(T, None, [SENTINEL, Y(u)], 0, Follower)
             && n[3].term == T && n[3].log == [SENTINEL, X(u)] && n[3].commit == 0
    ensures Reached(g, t') && Lagging(Last(t'), 2, 1) && Last(t').nodes[1] == Last(t).nodes[1]
    ensures var n, n' := Last(t).nodes, Last(t').nodes;
            n'[2].term == T + 1 && n'[2].log == n[2].log && n'[3].log == n[3].log
  {
    hide Path, AllQuiet;
    var t1 := ElectWith(g, t, 2, 3);
    assert Lagging(Last(t1), 2, 2);
    hide Lagging;
    var t2 := Rejects(g, t1, 2);
    LaggingSame(Last(t1), Last(t2), 2);
    t' := StepsBack(g, t2, 2);
  }

  lemma OneItem(s: NodeState, command: Command)
    ensures AppendCommands(s, [command]) == s.(log := s.log + [LogItem(command, s.term)])
  {
  }

  /** Node 2 after it has heard that it and node 3 hold its two entries. */
  function TwoHold(s: NodeState): NodeState
    requires s.role.Leader?
  {
    s.(role := Leader((map i | i in NODES :: 2)[3 := 1][2 := 3][3 := 3], (map i | i in NODES :: 0)[2 := 2][3 := 2]))
  }

  lemma HearsBoth(s: NodeState)
    requires s.role == Leader((map i | i in NODES :: 2)[3 := 1], map i | i in NODES :: 0) && |s.log| == 3
    ensures var s1 := HandleAppendResp(s, Confirmation(2, 2, s).body.appendResp, 2);
            && s1.role.Leader? && s1.term == s.term
            && HandleAppendResp(s1, Confirmation(3, 2, s).body.appendResp, 3) == TwoHold(s)
  {
  }

  /** Node 2 appends an entry of its own term and node 3 takes over both entries. */
  lemma SecondReplicates(g: Guards, t: Trace, u: Term, T: Term) returns (t': Trace)
    requires Reached(g, t) && Lagging(Last(t), 2, 1)
    requires var n := Last(t).nodes;
             n[2].term == T + 1 && n[2].log == [SENTINEL, Y(u)] && |n[3].log| == 2
    ensures Reached(g, t') && Last(t').nodes[1] == Last(t).nodes[1]
    ensures var s := Last(t).nodes[2].(log := [SENTINEL, Y(u), Z(T)]); Last(t').nodes[2] == TwoHold(s)
  {
    hide Path, AllQuiet;
    OneItem(Last(t).nodes[2], "z");
    var t1 := ThenAppend(g, t, 2, ["z"]);
    var s, f := Last(t1).nodes[2], Last(t1).nodes[3];
    assert s.log == [SENTINEL, Y(u), Z(T)];
    assert f.log[..1] == s.log[..1];
    assert CanCopy(s, f, 3) && SendsAll(s, NODES);
    HearsBoth(s);
    hide Lagging, CanCopy, SendsAll, HandleAppendResp, TwoHold;
    var t2 := Copy(g, t1, 2, 3);
    var t3 := ConfirmOwn(g, t2, 2);
    var t4 := Hear(g, t3, Confirmation(2, 2, s));
    t' := Hear(g, t4, Confirmation(3, 2, s));
  }

  lemma TwoCommit(s: NodeState)
    requires s.role.Leader? && |s.log| == 3 && s.commit == 0
    ensures CommitIfPossible(TwoHold(s), |NODES|) == TwoHold(s).(commit := 2)
  {
    assert Holders(TwoHold(s).role.matchIndex, 2) == {2, 3};
    assert |{2, 3}| == 2;
  }

  lemma SecondCommits(g: Guards, t: Trace, s: NodeState) returns (t': Trace)
    requires Reached(g, t) && s.role.Leader? && |s.log| == 3 && s.commit == 0 && s.log[2].leaderTerm == s.term
    requires Last(t).nodes[2] == TwoHold(s)
    ensures Reached(g, t') && Last(t').nodes[1] == Last(t).nodes[1]
    ensures Last(t').nodes[2].commit == 2 && Last(t').nodes[2].log == s.log
  {
    hide Path, AllQuiet, HighestHeld;
    TwoCommit(s);
    hide CommitIfPossible;
    t' := ThenCommit(g, t, 2);
  }

  /** Figure 8 of the Raft paper for any two terms that are not next to each other: the one
      commitment of an entry of term `u` by a leader of term `T` makes node 1 commit "x" where
      node 2, which commits an entry of its own term, has committed "y". */
  lemma OlderIsLost(u: Term, T: Term) returns (t: Trace)
    requires u >= 1 && T >= u + 2
    ensures Run(Sparing(u, T), t) && NoLeaderTimesOut(t)
    ensures 1 in Last(t).nodes && 2 in Last(t).nodes
    ensures var n := Last(t).nodes;
            && n[1].commit == 1 && n[1].log == [SENTINEL, LogItem("x", u)]
            && n[2].commit == 2 && n[2].log == [SENTINEL, LogItem("y", u + 1), LogItem("z", T + 1)]
  {
    hide Path, AllQuiet, Lagging, TwoHold;
    var g := Sparing(u, T);
    var t1 := OldIsCommitted(g, u, T);
    var t2 := SecondStepsBack(g, t1, u, T);
    LaggingLeads(Last(t2));
    var t3 := SecondReplicates(g, t2, u, T);
    var s := Last(t2).nodes[2].(log := [SENTINEL, Y(u), Z(T)]);
    t := SecondCommits(g, t3, s);
    PathIsRun(g, t);
  }

  lemma LaggingLeads(c: State)
    requires Lagging(c, 2, 1)
    ensures c.nodes[2].role.Leader? && c.nodes[2].commit == 0 && |c.nodes[3].log| <= 2
  {
  }

  /** The exact condition for committing an entry of term `u` in term `T`, which a leader can see
      before it commits: with all other guards in place, state machine safety holds in every run
      if and only if the terms are the same or next to each other. No entry but the sentinel has
      term 0, so sparing it changes nothing. */
  lemma OldCommitIsExact(u: Term, T: Term)
    ensures AlwaysAgree(Sparing(u, T)) <==> u == 0 || T <= u + 1
  {
    if u == 0 || T <= u + 1 {
      NextTermIsSafe(u, T);
    } else {
      var t := OlderIsLost(u, T);
      var c := Last(t);
      assert !Agree(c, c) by {
        assert c.nodes[1].log[1] != c.nodes[2].log[1];
      }
      assert c == t.states[|t.states| - 1];
    }
  }
}
