/** The invariants hold in every state of every run that obeys the guards they need. */
module RunInvariants {
  import opened Messages
  import opened NodeSpec
  import opened Cluster
  import opened CoreInvariant
  import opened CoreStep
  import opened LeaderInvariant
  import opened CommitStep

  lemma GrowsTransitive(h: History, h': History, h'': History)
    requires Grows(h, h') && Grows(h', h'')
    ensures Grows(h, h'')
  {
    forall t | t in h.elections ensures t in h''.elections && ElectionGrows(h.elections[t], h''.elections[t]) {
      assert ElectionGrows(h.elections[t], h'.elections[t]);
      assert ElectionGrows(h'.elections[t], h''.elections[t]);
    }
  }

  lemma {:induction false} RunCore(g: Guards, t: Trace, i: nat)
    requires Run(g, t) && g.oneVote && i < |t.states|
    ensures Core(t.states[i]) && Ids(t.states[i]) == t.ids
  {
    hide Run, Core, Next, Enabled;
    RunBegins(g, t);
    if i == 0 {
      InitCore(t.ids);
    } else {
      RunCore(g, t, i - 1);
      StepAt(g, t, i - 1);
      StepKeepsCore(t.states[i - 1], t.actions[i - 1]);
    }
  }

  lemma {:induction false} RunGrows(g: Guards, t: Trace, i: nat, j: nat)
    requires Run(g, t) && g.oneVote && i <= j < |t.states|
    ensures Grows(t.states[i].hist, t.states[j].hist)
    decreases j - i
  {
    hide Run, Grows, Core, Next, Enabled;
    if i == j {
      GrowsToItself(t.states[i].hist);
    } else {
      RunGrows(g, t, i, j - 1);
      RunCore(g, t, j - 1);
      StepAt(g, t, j - 1);
      StepKeepsCore(t.states[j - 1], t.actions[j - 1]);
      GrowsTransitive(t.states[i].hist, t.states[j - 1].hist, t.states[j].hist);
    }
  }

  lemma GrowsToItself(h: History)
    ensures Grows(h, h)
  {
  }

  lemma {:induction false} RunMatched(g: Guards, t: Trace, i: nat)
    requires Run(g, t) && g.oneVote && g.freshReply && i < |t.states|
    ensures Matched(t.states[i])
  {
    hide Run, Core, Next, Enabled;
    RunBegins(g, t);
    if i > 0 {
      RunMatched(g, t, i - 1);
      RunCore(g, t, i - 1);
      StepAt(g, t, i - 1);
      hide Matched;
      StepKeepsMatched(t.states[i - 1], t.actions[i - 1]);
    }
  }

  lemma {:induction false} RunNexts(g: Guards, t: Trace, i: nat)
    requires Run(g, t) && g.oneVote && g.freshReply && g.nextFloor && i < |t.states|
    ensures NextsInRange(t.states[i])
  {
    hide Run, Core, Matched, Next, Enabled;
    RunBegins(g, t);
    if i > 0 {
      RunNexts(g, t, i - 1);
      RunMatched(g, t, i - 1);
      RunCore(g, t, i - 1);
      StepAt(g, t, i - 1);
      hide NextsInRange;
      StepKeepsNexts(t.states[i - 1], t.actions[i - 1]);
    }
  }

  lemma {:induction false} RunCommitted(g: Guards, t: Trace, i: nat)
    requires Run(g, t) && g.oneVote && g.freshReply && g.commits == RECENT && i < |t.states|
    ensures Committed(t.states[i])
  {
    hide Run, Core, Matched, Committed, Next, Enabled;
    RunBegins(g, t);
    if i == 0 {
      InitCommitted(t.ids);
    } else {
      RunCommitted(g, t, i - 1);
      RunMatched(g, t, i - 1);
      RunCore(g, t, i - 1);
      StepAt(g, t, i - 1);
      StepKeepsCommitted(t.states[i - 1], t.actions[i - 1]);
    }
  }

  lemma InitCommitted(ids: set<NodeId>)
    ensures Committed(Init(ids))
  {
    assert INITIAL.log[..1] == [SENTINEL];
    assert NodeCommitOk(Init(ids).hist, INITIAL);
  }
}
