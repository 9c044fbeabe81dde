/** The safety properties of sections 5.2 to 5.4 of the Raft paper, for every run of any
    cluster, between any two moments of the run. Each theorem names the guards it needs. */
module Safety {
  import opened Messages
  import opened NodeSpec
  import opened Cluster
  import opened CoreInvariant
  import opened CoreFrame
  import opened AppendEntriesStep
  import opened VoteStep
  import opened LeaderStep
  import opened LeaderInvariant
  import opened CommitInvariant
  import opened CommitStep
  import opened RunInvariants

  // What one state says, in terms of its history

  lemma LeaderRecorded(c: State, id: NodeId, term: Term)
    requires Core(c) && Leads(c, id, term)
    ensures term in c.hist.elections && c.hist.elections[term].leader == id
    ensures c.hist.elections[term].log == c.nodes[id].log
  {
    CoreNode(c, id);
    LeaderKeys(c.hist, Ids(c), id, c.nodes[id]);
  }

  lemma LogRecorded(c: State, id: NodeId)
    requires Core(c) && id in c.nodes
    ensures LogOk(c.hist, c.nodes[id].log)
  {
    CoreNode(c, id);
  }

  lemma ElectionRecordGrows(h: History, h': History, t: Term)
    requires Grows(h, h') && t in h.elections
    ensures t in h'.elections && ElectionGrows(h.elections[t], h'.elections[t])
  {
  }

  // Section 5.2

  /** At most one node ever leads a term, at the same or at different times. */
  lemma ElectionSafety(g: Guards, t: Trace, i: nat, j: nat, a: NodeId, b: NodeId, term: Term)
    requires Run(g, t) && g.oneVote && i <= j < |t.states|
    requires Leads(t.states[i], a, term) && Leads(t.states[j], b, term)
    ensures a == b
  {
    hide Core, Grows, Run;
    RunCore(g, t, i);
    RunCore(g, t, j);
    RunGrows(g, t, i, j);
    LeaderRecorded(t.states[i], a, term);
    LeaderRecorded(t.states[j], b, term);
    ElectionRecordGrows(t.states[i].hist, t.states[j].hist, term);
  }

  /** While a node leads a term its log only grows. */
  lemma LeaderAppendOnly(g: Guards, t: Trace, i: nat, j: nat, id: NodeId, term: Term)
    requires Run(g, t) && g.oneVote && i <= j < |t.states|
    requires Leads(t.states[i], id, term) && Leads(t.states[j], id, term)
    ensures t.states[i].nodes[id].log <= t.states[j].nodes[id].log
  {
    hide Core, Grows, Run;
    RunCore(g, t, i);
    RunCore(g, t, j);
    RunGrows(g, t, i, j);
    LeaderRecorded(t.states[i], id, term);
    LeaderRecorded(t.states[j], id, term);
    ElectionRecordGrows(t.states[i].hist, t.states[j].hist, term);
  }

  // Section 5.3

  /** Two entries with the same index and term, in any two logs at any two times, are equal
      and so is everything before them. */
  lemma LogMatching(g: Guards, t: Trace, i: nat, j: nat, a: NodeId, b: NodeId, k: nat)
    requires Run(g, t) && g.oneVote && i <= j < |t.states|
    requires a in t.states[i].nodes && k < |t.states[i].nodes[a].log|
    requires b in t.states[j].nodes && k < |t.states[j].nodes[b].log|
    requires t.states[i].nodes[a].log[k].leaderTerm == t.states[j].nodes[b].log[k].leaderTerm
    ensures t.states[i].nodes[a].log[..k + 1] == t.states[j].nodes[b].log[..k + 1]
  {
    hide Core, Grows, Run, LogOk;
    RunCore(g, t, i);
    RunCore(g, t, j);
    RunGrows(g, t, i, j);
    LogRecorded(t.states[i], a);
    LogRecorded(t.states[j], b);
    LogOkGrows(t.states[i].hist, t.states[j].hist, t.states[i].nodes[a].log);
    LogsMatch(t.states[j].hist, t.states[i].nodes[a].log, t.states[j].nodes[b].log, k);
  }

  /** What the leader counts a follower to hold, the follower does hold while it is in the
      leader's term. */
  lemma MatchIndexSound(g: Guards, t: Trace, i: nat, id: NodeId, f: NodeId, k: nat)
    requires Run(g, t) && g.oneVote && g.freshReply && i < |t.states|
    requires id in t.states[i].nodes && f in t.states[i].nodes && t.states[i].nodes[id].role.Leader?
    requires k <= Lookup(t.states[i].nodes[id].role.matchIndex, f)
    requires t.states[i].nodes[f].term == t.states[i].nodes[id].term
    ensures var l, l' := t.states[i].nodes[id].log, t.states[i].nodes[f].log;
            k < |l| && k < |l'| && l'[..k + 1] == l[..k + 1]
  {
    hide Core, Run;
    RunCore(g, t, i);
    RunMatched(g, t, i);
    MatchHolds(t.states[i], id, f, k);
  }

  lemma AckHolds(h: History, ids: set<NodeId>, f: NodeId, s: NodeState, term: Term, k: nat)
    requires HistOk(h, ids) && NodeOk(h, ids, f, s) && s.term == term && Confirmed(h, f, term, k)
    requires term in h.elections
    ensures k < |s.log| && k < |h.elections[term].log| && s.log[..k + 1] == h.elections[term].log[..k + 1]
  {
    assert ElectionOk(h, ids, term);
    if k > 0 {
      assert AckKept(h, s, Ack(f, term, k));
    } else {
      LogsMatch(h, s.log, h.elections[term].log, 0);
    }
  }

  lemma MatchHolds(c: State, id: NodeId, f: NodeId, k: nat)
    requires Core(c) && Matched(c) && id in c.nodes && f in c.nodes && c.nodes[id].role.Leader?
    requires k <= Lookup(c.nodes[id].role.matchIndex, f) && c.nodes[f].term == c.nodes[id].term
    ensures k < |c.nodes[id].log| && k < |c.nodes[f].log| && c.nodes[f].log[..k + 1] == c.nodes[id].log[..k + 1]
  {
    hide Core, HistOk, NodeOk;
    var s := c.nodes[id];
    CoreNode(c, id);
    CoreNode(c, f);
    LeaderKeys(c.hist, Ids(c), id, s);
    assert MatchesOk(c.hist, s);
    var m := Lookup(s.role.matchIndex, f);
    assert Confirmed(c.hist, f, s.term, m);
    AckHolds(c.hist, Ids(c), f, c.nodes[f], s.term, m);
    assert s.log[..m + 1][..k + 1] == s.log[..k + 1];
    assert c.nodes[f].log[..m + 1][..k + 1] == c.nodes[f].log[..k + 1];
  }

  // The winner's log

  /** A leader's log is the log it had when it asked for votes, followed by entries of its
      own term, and everything it asked with is of earlier terms. */
  lemma LeaderExtendsAdvertised(g: Guards, t: Trace, i: nat, j: nat, id: NodeId)
    requires Run(g, t) && g.oneVote && i < j < |t.states|
    requires t.actions[i] == Timeout(id)
    requires id in t.states[i].nodes && Leads(t.states[j], id, t.states[i].nodes[id].term + 1)
    ensures var asked, log, term := t.states[i].nodes[id].log, t.states[j].nodes[id].log, t.states[j].nodes[id].term;
            && asked <= log
            && (forall k | 0 <= k < |asked| :: asked[k].leaderTerm < term)
            && (forall k | |asked| <= k < |log| :: log[k].leaderTerm == term)
  {
    hide Core, Grows, Run, ElectionOk;
    AskedRecorded(g, t, i, j, id);
    RunCore(g, t, j);
    var c, term := t.states[j], t.states[i].nodes[id].term + 1;
    LeaderRecorded(c, id, term);
    StartIsBallot(c, term);
  }

  lemma StartIsBallot(c: State, term: Term)
    requires Core(c) && term in c.hist.elections
    ensures var e := c.hist.elections[term];
            && VoteKey(e.leader, term) in c.hist.ballots && e.start == c.hist.ballots[VoteKey(e.leader, term)].log
            && e.start <= e.log
            && (forall k | 0 <= k < |e.start| :: e.start[k].leaderTerm < term)
            && (forall k | |e.start| <= k < |e.log| :: e.log[k].leaderTerm == term)
  {
    assert ElectionOk(c.hist, Ids(c), term);
  }

  lemma TimeoutRecordsBallot(c: State, id: NodeId)
    requires Core(c) && Enabled(c, Timeout(id))
    ensures var key := VoteKey(id, c.nodes[id].term + 1); var h' := Next(c, Timeout(id)).hist;
            key in h'.ballots && h'.ballots[key] == Ballot(id, c.nodes[id].log)
  {
    hide Core, HistOk, NodeOk, Grows, LogsNonempty;
    CoreNode(c, id);
    CandidateHistory(c.hist, Ids(c), id, c.nodes[id]);
  }

  lemma AskedRecorded(g: Guards, t: Trace, i: nat, j: nat, id: NodeId)
    requires Run(g, t) && g.oneVote && i < j < |t.states| && t.actions[i] == Timeout(id) && id in t.states[i].nodes
    ensures var key := VoteKey(id, t.states[i].nodes[id].term + 1); var h := t.states[j].hist;
            key in h.ballots && h.ballots[key] == Ballot(id, t.states[i].nodes[id].log)
  {
    hide Core;
    RunCore(g, t, i);
    StepAt(g, t, i);
    TimeoutRecordsBallot(t.states[i], id);
    RunGrows(g, t, i + 1, j);
  }

  /** The step that makes a node leader leaves it with exactly the log it asked with. */
  lemma WinnerKeepsAdvertised(g: Guards, t: Trace, i: nat, j: nat, id: NodeId)
    requires Run(g, t) && g.oneVote && i < j < |t.actions|
    requires t.actions[i] == Timeout(id) && id in t.states[i].nodes
    requires var term := t.states[i].nodes[id].term + 1;
             !Leads(t.states[j], id, term) && Leads(t.states[j + 1], id, term)
    ensures t.states[j + 1].nodes[id].log == t.states[i].nodes[id].log
  {
    hide Core, Grows;
    var term := t.states[i].nodes[id].term + 1;
    RunCore(g, t, j);
    RunCore(g, t, j + 1);
    StepAt(g, t, j);
    NewLeaderStart(t.states[j], t.actions[j], id, term);
    StartIsBallot(t.states[j + 1], term);
    AskedRecorded(g, t, i, j + 1, id);
  }

  lemma NewLeaderStart(c: State, a: Action, id: NodeId, term: Term)
    requires Enabled(c, a) && !Leads(c, id, term) && Leads(Next(c, a), id, term)
    ensures var e := Next(c, a).hist.elections;
            term in e && e[term].leader == id && e[term].start == Next(c, a).nodes[id].log
  {
    hide HighestHeld, LogsNonempty;
  }

  // Section 5.4

  lemma CommittedRecorded(g: Guards, t: Trace, i: nat, m: nat, id: NodeId)
    requires Run(g, t) && g.oneVote && g.freshReply && g.commits == RECENT
    requires i <= m < |t.states| && id in t.states[i].nodes
    ensures var s := t.states[i].nodes[id];
            s.commit < |s.log| && CommittedBy(t.states[m].hist, s.term, s.log[..s.commit + 1])
    ensures HistOk(t.states[m].hist, t.ids) && RecordsOk(t.states[m].hist, t.ids)
  {
    hide Grows, HistOk, NodeOk, PacketOk, RecordOk, CommittedBy, PacketCommitOk;
    RunCore(g, t, i);
    RunCore(g, t, m);
    RunGrows(g, t, i, m);
    RunCommitted(g, t, i);
    RunCommitted(g, t, m);
    var s := t.states[i].nodes[id];
    assert NodeCommitOk(t.states[i].hist, s);
    CommittedByGrows(t.states[i].hist, t.states[m].hist, t.ids, s.term, s.term, s.log[..s.commit + 1]);
  }

  lemma LeaderStartsWithCommitted(h: History, ids: set<NodeId>, term: Term, p: Log, t: Term)
    requires HistOk(h, ids) && RecordsOk(h, ids) && CommittedBy(h, term, p) && t in h.elections && term < t
    ensures p <= h.elections[t].start
  {
    StartsNonempty(h, ids, t);
    hide HistOk, RecordOk;
    if !(p <= [SENTINEL]) {
      var r :| r in h.commits && Covers(h, r, term, p);
      LeaderHasCommitted(h, ids, r, t);
    }
  }

  lemma StartsNonempty(h: History, ids: set<NodeId>, t: Term)
    requires HistOk(h, ids) && t in h.elections
    ensures [SENTINEL] <= h.elections[t].start
  {
    assert ElectionOk(h, ids, t);
    assert BallotOk(h, VoteKey(h.elections[t].leader, t));
  }

  /** Everything a node knows to be committed is in the log of every leader of a later term,
      whether that leader was observed before or after. */
  lemma LeaderCompleteness(g: Guards, t: Trace, i: nat, j: nat, a: NodeId, b: NodeId)
    requires Run(g, t) && g.oneVote && g.freshReply && g.commits == RECENT && i < |t.states| && j < |t.states|
    requires a in t.states[i].nodes && b in t.states[j].nodes && t.states[j].nodes[b].role.Leader?
    requires t.states[i].nodes[a].term < t.states[j].nodes[b].term
    ensures var s := t.states[i].nodes[a];
            s.commit < |s.log| && s.log[..s.commit + 1] <= t.states[j].nodes[b].log
  {
    hide Core, Grows, Run, HistOk, RecordsOk, CommittedBy;
    var m := Max(i, j);
    var s, s' := t.states[i].nodes[a], t.states[j].nodes[b];
    CommittedRecorded(g, t, i, m, a);
    RunCore(g, t, j);
    RunGrows(g, t, j, m);
    LeaderRecorded(t.states[j], b, s'.term);
    StartIsBallot(t.states[j], s'.term);
    ElectionRecordGrows(t.states[j].hist, t.states[m].hist, s'.term);
    LeaderStartsWithCommitted(t.states[m].hist, t.ids, s.term, s.log[..s.commit + 1], s'.term);
  }

  /** State machine safety: any two nodes, at any two times, agree on every index both know
      to be committed. */
  lemma StateMachineSafety(g: Guards, t: Trace, i: nat, j: nat, a: NodeId, b: NodeId, k: nat)
    requires Run(g, t) && g.oneVote && g.freshReply && g.commits == RECENT && i <= j < |t.states|
    requires a in t.states[i].nodes && b in t.states[j].nodes
    requires k <= t.states[i].nodes[a].commit && k <= t.states[j].nodes[b].commit
    ensures var s, s' := t.states[i].nodes[a], t.states[j].nodes[b];
            k < |s.log| && k < |s'.log| && s.log[..k + 1] == s'.log[..k + 1]
  {
    hide Run, HistOk, RecordsOk, CommittedBy;
    var s, s' := t.states[i].nodes[a], t.states[j].nodes[b];
    CommittedRecorded(g, t, i, j, a);
    CommittedRecorded(g, t, j, j, b);
    var p, p' := s.log[..s.commit + 1], s'.log[..s'.commit + 1];
    CommittedAgree(t.states[j].hist, t.ids, s.term, p, s'.term, p');
    assert p[..k + 1] == s.log[..k + 1] && p'[..k + 1] == s'.log[..k + 1];
  }

  lemma StepKeepsCommitIndex(c: State, a: Action, id: NodeId)
    requires Core(c) && Committed(c) && Enabled(c, a) && id in c.nodes
    ensures c.nodes[id].commit <= Next(c, a).nodes[id].commit
  {
    hide Core, Committed, LogsNonempty;
    if a.Deliver? && a.packet.to == id && a.packet.body.AppendReq? {
      RequestKeepsCommit(c, a.packet);
    }
  }

  /** No commit index ever goes back. */
  lemma {:induction false} CommitNeverGoesBack(g: Guards, t: Trace, i: nat, j: nat, id: NodeId)
    requires Run(g, t) && g.oneVote && g.freshReply && g.commits == RECENT && i <= j < |t.states| && id in t.ids
    ensures id in t.states[i].nodes && id in t.states[j].nodes
    ensures t.states[i].nodes[id].commit <= t.states[j].nodes[id].commit
  {
    hide Run, Core, Committed, Next, Enabled;
    RunCore(g, t, i);
    if i < j {
      CommitNeverGoesBack(g, t, i, j - 1, id);
      RunCore(g, t, j);
      RunCore(g, t, j - 1);
      RunCommitted(g, t, j - 1);
      StepAt(g, t, j - 1);
      StepKeepsCommitIndex(t.states[j - 1], t.actions[j - 1], id);
    }
  }

  /** No later step changes or removes an entry at or below a node's own commit index. */
  lemma CommittedEntriesStay(g: Guards, t: Trace, i: nat, j: nat, id: NodeId)
    requires Run(g, t) && g.oneVote && g.freshReply && g.commits == RECENT && i <= j < |t.states|
    requires id in t.ids && id in t.states[i].nodes && id in t.states[j].nodes
    ensures var s := t.states[i].nodes[id];
            s.commit < |s.log| && s.log[..s.commit + 1] <= t.states[j].nodes[id].log
  {
    hide Run;
    CommitNeverGoesBack(g, t, i, j, id);
    StateMachineSafety(g, t, i, j, id, id, t.states[i].nodes[id].commit);
  }

  // Ranges

  /** Log terms never decrease and never exceed the current term; the commit index is inside
      the log; a leader's match indices are too, and its next indices reach at most one past
      its end and never below 1, so replication never reads outside the log. */
  lemma IndicesInRange(g: Guards, t: Trace, i: nat, id: NodeId)
    requires Run(g, t) && g == Guards(true, true, true, RECENT) && i < |t.states| && id in t.states[i].nodes
    ensures var s := t.states[i].nodes[id];
            && s.commit < |s.log|
            && (forall j, k | 0 <= j <= k < |s.log| :: s.log[j].leaderTerm <= s.log[k].leaderTerm <= s.term)
    ensures var s := t.states[i].nodes[id];
            s.role.Leader? ==> Enabled(t.states[i], Replicate(id))
                               && forall f | f in t.ids :: Lookup(s.role.matchIndex, f) < |s.log|
  {
    hide Core, Run, HistOk, CommittedBy;
    RunCore(g, t, i);
    RunMatched(g, t, i);
    RunNexts(g, t, i);
    CommittedRecorded(g, t, i, i, id);
    var c := t.states[i];
    var s := c.nodes[id];
    LogTermsInOrder(c, id);
    if s.role.Leader? {
      LeaderRanges(c, id);
    }
  }

  lemma LogTermsInOrder(c: State, id: NodeId)
    requires Core(c) && id in c.nodes
    ensures var s := c.nodes[id];
            forall j, k | 0 <= j <= k < |s.log| :: s.log[j].leaderTerm <= s.log[k].leaderTerm <= s.term
  {
    var s := c.nodes[id];
    CoreNode(c, id);
    forall j, k | 0 <= j <= k < |s.log| ensures s.log[j].leaderTerm <= s.log[k].leaderTerm <= s.term {
      TermsSorted(c.hist, Ids(c), s.log, j, k);
    }
  }

  lemma LogsAreNonempty(c: State)
    requires Core(c)
    ensures LogsNonempty(c)
  {
    hide Core;
    forall j | j in c.nodes ensures c.nodes[j].log != [] {
      LogRecorded(c, j);
    }
  }

  lemma LeaderRanges(c: State, id: NodeId)
    requires Core(c) && Matched(c) && NextsInRange(c) && id in c.nodes && c.nodes[id].role.Leader?
    ensures Enabled(c, Replicate(id))
    ensures forall f | f in Ids(c) :: Lookup(c.nodes[id].role.matchIndex, f) < |c.nodes[id].log|
  {
    hide Core, Matched, HistOk, NodeOk;
    var s := c.nodes[id];
    CoreNode(c, id);
    LeaderKeys(c.hist, Ids(c), id, s);
    LogsAreNonempty(c);
    assert NextsOk(s);
    forall f | f in Ids(c) ensures Lookup(s.role.matchIndex, f) < |s.log| {
      MatchInLog(c, id, f);
    }
  }

  /** Every AppendEntries request in the network reaches the end of a log its sender had, so
      its commit index never exceeds its last entry. */
  lemma RequestsCoverTheirCommit(g: Guards, t: Trace, i: nat, p: Packet)
    requires Run(g, t) && g.oneVote && g.freshReply && g.commits == RECENT && i < |t.states|
    requires p in t.states[i].net && p.body.AppendReq?
    ensures p.body.appendReq.leaderCommit <= p.body.appendReq.prevLogIndex + |p.body.appendReq.entries|
  {
    RunCommitted(g, t, i);
    assert PacketCommitOk(t.states[i].hist, p);
  }
}
