/** What an electable node lacks is not only missing at a later leader: that leader can commit a
    different entry in its place. It offers its log to its voters, stepping back after each
    rejection, until all of them hold it. */
module Overwriting {
  import opened Options
  import opened Messages
  import opened NodeSpec
  import opened Cluster
  import opened Quorum
  import opened RunSteps
  import opened NodeActions
  import opened Necessity

  // Every log starts with the sentinel, whatever the guards

  predicate HasSentinel(log: Log) { log != [] && log[0] == SENTINEL }

  ghost predicate Sentinels(c: State) {
    forall id | id in c.nodes :: HasSentinel(c.nodes[id].log)
  }

  lemma DeliveryKeepsSentinel(c: State, p: Packet)
    requires LogsNonempty(c) && p.to in c.nodes && HasSentinel(c.nodes[p.to].log)
    ensures p.to in DeliverTo(c, p).nodes && HasSentinel(DeliverTo(c, p).nodes[p.to].log)
  {
    hide LogsNonempty;
  }

  lemma ActKeepsSentinel(c: State, a: Action)
    requires Enabled(c, a) && HasSentinel(c.nodes[Actor(a)].log)
    ensures Actor(a) in Next(c, a).nodes && HasSentinel(Next(c, a).nodes[Actor(a)].log)
  {
    hide LogsNonempty, HighestHeld, DeliverTo;
    match a
    case Deliver(p) => DeliveryKeepsSentinel(c, p);
    case _ =>
  }

  lemma OthersStay(c: State, a: Action, id: NodeId)
    requires Enabled(c, a) && id in c.nodes && id != Actor(a)
    ensures id in Next(c, a).nodes && Next(c, a).nodes[id] == c.nodes[id]
  {
    NextIsAct(c, a);
  }

  lemma {:induction false} RunSentinels(g: Guards, t: Trace, i: nat)
    requires Run(g, t) && i < |t.states|
    ensures Sentinels(t.states[i])
  {
    hide Run, Next, Obeys;
    RunBegins(g, t);
    if i > 0 {
      RunSentinels(g, t, i - 1);
      StepAt(g, t, i - 1);
      var c, a := t.states[i - 1], t.actions[i - 1];
      NextKeepsLogs(c, a);
      hide HasSentinel;
      ActKeepsSentinel(c, a);
      forall id | id in c.nodes && id != Actor(a) ensures HasSentinel(Next(c, a).nodes[id].log) {
        OthersStay(c, a, id);
      }
    }
  }

  // The leader and one follower

  /** A leader whose next and match indices all point into its log. */
  predicate Leading(s: NodeState, ids: set<NodeId>) {
    && s.role.Leader? && HasSentinel(s.log)
    && s.role.nextIndex.Keys == ids && s.role.matchIndex.Keys == ids
    && forall id | id in ids :: 1 <= s.role.nextIndex[id] <= |s.log| && s.role.matchIndex[id] < |s.log|
  }

  /** Node `f` listens to the leader, whatever its own role is. */
  predicate Follows(s: NodeState, f: NodeState) {
    f.term <= s.term && HasSentinel(f.log)
  }

  /** `f'` has committed what the leader has committed, besides what `f` had. */
  predicate Catches(s: NodeState, f: NodeState, f': NodeState)
    requires s.log != []
  {
    f.commit <= LastIndex(s.log) ==> f'.commit == Max(f.commit, Min(s.commit, LastIndex(s.log)))
  }

  /** The leader knows that `v` holds its whole log. */
  predicate Knows(s: NodeState, v: NodeId) {
    s.role.Leader? && s.log != [] && Lookup(s.role.matchIndex, v) >= LastIndex(s.log)
  }

  /** As `s`, but with another view of the nodes `vs`. */
  ghost predicate SameBut(s: NodeState, s': NodeState, vs: set<NodeId>) {
    && s.role.Leader? && s'.role.Leader? && s' == s.(role := s'.role)
    && forall u: NodeId | u !in vs :: Lookup(s'.role.matchIndex, u) == Lookup(s.role.matchIndex, u)
  }

  /** The reply to an offer of everything from the next index on: a follower that has the entry
      before it confirms the whole log and commits what the leader has committed, any other rejects
      and commits nothing. */
  lemma OfferReply(s: NodeState, f: NodeState, x: NodeId, v: NodeId, ids: set<NodeId>)
    requires Leading(s, ids) && v in ids && Follows(s, f)
    ensures SendDefined(s, v)
    ensures var (f', resp) := HandleAppendReq(f, AppendRequestFor(s, x, v));
            && resp.currentTerm == s.term
            && (resp.matchedUntil == None ==> Lookup(s.role.nextIndex, v) > 1 && f'.commit == f.commit)
            && (resp.matchedUntil != None ==> resp.matchedUntil == Some(LastIndex(s.log)))
            && (resp.matchedUntil != None ==> Catches(s, f, f'))
  {
    var next := Lookup(s.role.nextIndex, v);
    var wanted := f.log[..Min(next, |f.log|)] + s.log[next..];
    assert next <= |f.log| ==> |wanted| == |s.log|;
  }

  lemma Confirmed(s: NodeState, v: NodeId, ids: set<NodeId>)
    requires Leading(s, ids) && v in ids
    ensures var s' := HandleAppendResp(s, AppendEntriesResponse(s.term, Some(LastIndex(s.log))), v);
            SameBut(s, s', {v}) && Leading(s', ids) && Knows(s', v)
  {
  }

  lemma Rejected(s: NodeState, v: NodeId, ids: set<NodeId>)
    requires Leading(s, ids) && v in ids && Lookup(s.role.nextIndex, v) > 1
    ensures var s' := HandleAppendResp(s, AppendEntriesResponse(s.term, None), v);
            && SameBut(s, s', {v}) && Leading(s', ids)
            && Lookup(s'.role.nextIndex, v) == Lookup(s.role.nextIndex, v) - 1
  {
  }

  /** The leader hears a rejection, which guard G3 allows above next index 1. */
  lemma HearRejection(g: Guards, t: Trace, p: Packet) returns (t': Trace)
    requires RunsTo(g, t) && p in Last(t).net && p.to in t.ids && p.body.AppendResp?
    requires var s := Last(t).nodes[p.to];
             && p.body.appendResp == AppendEntriesResponse(s.term, None)
             && (s.role.Leader? ==> Lookup(s.role.nextIndex, p.from) > 1)
    ensures RunsTo(g, t') && Continues(t, t') && Last(t').net == Last(t).net
    ensures var n := Last(t).nodes; Last(t').nodes == n[p.to := HandleAppendResp(n[p.to], p.body.appendResp, p.from)]
  {
    hide Path, AllQuiet;
    t' := ThenAppendResp(g, t, p);
  }

  /** The leader offers `v` what follows its next index, and `v` answers. */
  lemma Offer(g: Guards, t: Trace, x: NodeId, v: NodeId) returns (t': Trace, resp: AppendEntriesResponse)
    requires RunsTo(g, t) && x in t.ids && v in t.ids && x != v
    requires Leading(Last(t).nodes[x], t.ids) && Follows(Last(t).nodes[x], Last(t).nodes[v])
    ensures RunsTo(g, t') && Continues(t, t')
    ensures var s := Last(t).nodes[x];
            && (resp == AppendEntriesResponse(s.term, Some(LastIndex(s.log)))
                || (resp == AppendEntriesResponse(s.term, None) && Lookup(s.role.nextIndex, v) > 1))
            && Packet(v, x, AppendResp(resp)) in Last(t').net
            && (resp.matchedUntil == None ==> Follows(s, Last(t').nodes[v]))
    ensures var s, f, f' := Last(t).nodes[x], Last(t).nodes[v], Last(t').nodes[v];
            && (resp.matchedUntil == None ==> f'.commit == f.commit)
            && (resp.matchedUntil != None ==> Catches(s, f, f'))
    ensures Last(t').nodes == Last(t).nodes[v := Last(t').nodes[v]]
  {
    var s, f := Last(t).nodes[x], Last(t).nodes[v];
    OfferReply(s, f, x, v, t.ids);
    forall u | u in t.ids ensures SendDefined(s, u) {
    }
    hide Path, AllQuiet;
    var t1 := ThenReplicate(g, t, x);
    var p := Packet(x, v, AppendReq(AppendRequestFor(s, x, v)));
    assert p in AppendRequests(s, x, t.ids);
    t' := ThenAppendReq(g, t1, p);
    resp := HandleAppendReq(f, AppendRequestFor(s, x, v)).1;
  }

  /** One offer, after which the leader knows that `v` holds its log, or has stepped back. */
  lemma OfferOnce(g: Guards, t: Trace, x: NodeId, v: NodeId) returns (t': Trace, taken: bool)
    requires RunsTo(g, t) && x in t.ids && v in t.ids && x != v
    requires Leading(Last(t).nodes[x], t.ids) && Follows(Last(t).nodes[x], Last(t).nodes[v])
    ensures RunsTo(g, t') && Continues(t, t')
    ensures var n, n' := Last(t).nodes, Last(t').nodes;
            && n' == n[x := n'[x]][v := n'[v]]
            && SameBut(n[x], n'[x], {v}) && Leading(n'[x], t.ids)
            && if taken then Knows(n'[x], v) && Catches(n[x], n[v], n'[v])
               else && Follows(n'[x], n'[v]) && n'[v].commit == n[v].commit
                    && Lookup(n'[x].role.nextIndex, v) < Lookup(n[x].role.nextIndex, v)
  {
    var s := Last(t).nodes[x];
    LeadingLeads(s, t.ids);
    hide Path, AllQuiet, HandleAppendResp, Leading, SameBut, Follows, Knows, Catches;
    var t1, resp := Offer(g, t, x, v);
    taken := resp.matchedUntil != None;
    var p := Packet(v, x, AppendResp(resp));
    assert Last(t1).nodes[x] == s;
    if resp.matchedUntil == None {
      Rejected(s, v, t.ids);
      t' := HearRejection(g, t1, p);
      FollowsSame(s, Last(t').nodes[x], {v}, Last(t').nodes[v]);
    } else {
      Confirmed(s, v, t.ids);
      t' := Hear(g, t1, p);
    }
    TwoUpdated(Last(t).nodes, x, v, Last(t').nodes[x], Last(t1).nodes[v]);
  }

  lemma LeadingLeads(s: NodeState, ids: set<NodeId>)
    requires Leading(s, ids)
    ensures s.role.Leader? && s.log != []
  {
  }

  lemma TwoUpdated(n: map<NodeId, NodeState>, x: NodeId, v: NodeId, s: NodeState, f: NodeState)
    requires x in n && v in n && x != v
    ensures n[v := f][x := s] == n[x := s][v := f]
  {
  }

  lemma UpdatedAgain(n: map<NodeId, NodeState>, n': map<NodeId, NodeState>, n'': map<NodeId, NodeState>, x: NodeId,
                     v: NodeId)
    requires x in n && v in n && x in n' && v in n' && x in n'' && v in n''
    requires n' == n[x := n'[x]][v := n'[v]] && n'' == n'[x := n''[x]][v := n''[v]]
    ensures n'' == n[x := n''[x]][v := n''[v]]
  {
  }

  /** The leader makes `v` hold its log and commit what it has committed. */
  lemma {:induction false} Teach(g: Guards, t: Trace, x: NodeId, v: NodeId) returns (t': Trace)
    requires RunsTo(g, t) && x in t.ids && v in t.ids && x != v
    requires Leading(Last(t).nodes[x], t.ids) && Follows(Last(t).nodes[x], Last(t).nodes[v])
    ensures RunsTo(g, t') && Continues(t, t')
    ensures var n, n' := Last(t).nodes, Last(t').nodes;
            && n' == n[x := n'[x]][v := n'[v]]
            && SameBut(n[x], n'[x], {v}) && Leading(n'[x], t.ids) && Knows(n'[x], v)
            && n[x].log != [] && Catches(n[x], n[v], n'[v])
    decreases Lookup(Last(t).nodes[x].role.nextIndex, v)
  {
    LeadingLeads(Last(t).nodes[x], t.ids);
    hide Path, AllQuiet, Leading, Follows, SameBut, Knows, Catches;
    var taken;
    t', taken := OfferOnce(g, t, x, v);
    if !taken {
      var t1 := t';
      LeadingLeads(Last(t1).nodes[x], t.ids);
      t' := Teach(g, t1, x, v);
      CatchesLater(Last(t).nodes[x], Last(t1).nodes[x], {v}, Last(t).nodes[v], Last(t1).nodes[v], Last(t').nodes[v]);
      SameButBoth(Last(t).nodes[x], Last(t1).nodes[x], Last(t').nodes[x], {v}, {v});
      UpdatedAgain(Last(t).nodes, Last(t1).nodes, Last(t').nodes, x, v);
    }
  }

  lemma CatchesSame(s: NodeState, s': NodeState, vs: set<NodeId>, f: NodeState, f'': NodeState)
    requires SameBut(s, s', vs) && s.log != [] && Catches(s', f, f'')
    ensures Catches(s, f, f'')
  {
  }

  lemma CatchesLater(s: NodeState, s': NodeState, vs: set<NodeId>, f: NodeState, f': NodeState, f'': NodeState)
    requires SameBut(s, s', vs) && s.log != [] && f'.commit == f.commit && s'.log != [] && Catches(s', f', f'')
    ensures Catches(s, f, f'')
  {
  }

  lemma FollowsSame(s: NodeState, s': NodeState, vs: set<NodeId>, f: NodeState)
    requires SameBut(s, s', vs) && Follows(s, f)
    ensures Follows(s', f)
  {
  }

  lemma SameButBoth(s: NodeState, s': NodeState, s'': NodeState, vs: set<NodeId>, us: set<NodeId>)
    requires SameBut(s, s', vs) && SameBut(s', s'', us)
    ensures SameBut(s, s'', vs + us) && (vs == us ==> SameBut(s, s'', vs))
  {
    assert forall u: NodeId | u !in vs && u !in us ::
      Lookup(s''.role.matchIndex, u) == Lookup(s.role.matchIndex, u);
  }

  lemma StillKnows(s: NodeState, s': NodeState, vs: set<NodeId>, v: NodeId)
    requires SameBut(s, s', vs) && Knows(s, v) && v !in vs
    ensures Knows(s', v)
  {
  }

  /** All of `vs` hold the leader's log and have committed what it has, and no other node has changed. */
  ghost predicate Taught(n: map<NodeId, NodeState>, n': map<NodeId, NodeState>, x: NodeId, vs: set<NodeId>,
                         ids: set<NodeId>)
  {
    && ids <= n.Keys && ids <= n'.Keys && x in ids && vs <= ids && n[x].log != []
    && SameBut(n[x], n'[x], vs) && Leading(n'[x], ids)
    && (forall u | u in ids && u != x && u !in vs :: n'[u] == n[u])
    && forall v | v in vs :: Knows(n'[x], v) && Catches(n[x], n[v], n'[v])
  }

  lemma StillFollow(n: map<NodeId, NodeState>, n1: map<NodeId, NodeState>, x: NodeId, v: NodeId, rest: set<NodeId>)
    requires x in n && v in n && x in n1 && v in n1 && n1 == n[x := n1[x]][v := n1[v]] && SameBut(n[x], n1[x], {v})
    requires x !in rest && v !in rest && forall u | u in rest :: u in n && Follows(n[x], n[u])
    ensures forall u | u in rest :: u in n1 && Follows(n1[x], n1[u])
  {
  }

  lemma SelfStillFollow(n: map<NodeId, NodeState>, n1: map<NodeId, NodeState>, x: NodeId, vs: set<NodeId>)
    requires x in n && x in n1 && n1 == n[x := n1[x]] && SameBut(n[x], n1[x], {x})
    requires x !in vs && forall v | v in vs :: v in n && Follows(n[x], n[v])
    ensures forall v | v in vs :: v in n1 && Follows(n1[x], n1[v])
  {
  }

  lemma TaughtOneMore(n: map<NodeId, NodeState>, n1: map<NodeId, NodeState>, n': map<NodeId, NodeState>, x: NodeId,
                      v: NodeId, rest: set<NodeId>, ids: set<NodeId>)
    requires ids <= n.Keys && x in ids && v in ids && x != v && v !in rest && n[x].log != []
    requires x in n1 && v in n1 && n1 == n[x := n1[x]][v := n1[v]]
    requires SameBut(n[x], n1[x], {v}) && Knows(n1[x], v) && Catches(n[x], n[v], n1[v])
    requires Taught(n1, n', x, rest, ids)
    ensures Taught(n, n', x, {v} + rest, ids)
  {
    SameButBoth(n[x], n1[x], n'[x], {v}, rest);
    StillKnows(n1[x], n'[x], rest, v);
    forall u | u in rest && u != x ensures Catches(n[x], n[u], n'[u]) {
      CatchesSame(n[x], n1[x], {v}, n[u], n'[u]);
    }
    hide SameBut, Leading, Knows;
  }

  lemma TaughtKnow(n: map<NodeId, NodeState>, n': map<NodeId, NodeState>, x: NodeId, vs: set<NodeId>,
                   ids: set<NodeId>)
    requires Taught(n, n', x, vs, ids)
    ensures x in n && x in n' && SameBut(n[x], n'[x], vs) && Leading(n'[x], ids)
    ensures forall v | v in vs :: Knows(n'[x], v)
  {
  }

  lemma NobodyTaught(n: map<NodeId, NodeState>, x: NodeId, ids: set<NodeId>)
    requires ids <= n.Keys && x in ids && Leading(n[x], ids)
    ensures Taught(n, n, x, {}, ids)
  {
  }

  /** The leader offers its log to all of `voters` until they hold it. */
  lemma {:induction false} TeachAll(g: Guards, t: Trace, x: NodeId, voters: set<NodeId>) returns (t': Trace)
    requires RunsTo(g, t) && x in t.ids && voters <= t.ids && x !in voters
    requires Leading(Last(t).nodes[x], t.ids) && forall v | v in voters :: Follows(Last(t).nodes[x], Last(t).nodes[v])
    ensures RunsTo(g, t') && Continues(t, t') && Taught(Last(t).nodes, Last(t').nodes, x, voters, t.ids)
    decreases |voters|
  {
    hide Path, AllQuiet, Leading, Follows, SameBut, Knows, Catches, Taught;
    LeadingLeads(Last(t).nodes[x], t.ids);
    if voters == {} {
      t' := t;
      NobodyTaught(Last(t).nodes, x, t.ids);
    } else {
      var v :| v in voters;
      var rest := voters - {v};
      var t1 := Teach(g, t, x, v);
      StillFollow(Last(t).nodes, Last(t1).nodes, x, v, rest);
      t' := TeachAll(g, t1, x, rest);
      TaughtOneMore(Last(t).nodes, Last(t1).nodes, Last(t').nodes, x, v, rest, t.ids);
      assert {v} + rest == voters;
    }
  }

  /** The leader hears that it holds its own log. */
  lemma TeachSelf(g: Guards, t: Trace, x: NodeId) returns (t': Trace)
    requires RunsTo(g, t) && x in t.ids && Leading(Last(t).nodes[x], t.ids)
    ensures RunsTo(g, t') && Continues(t, t')
    ensures var n, n' := Last(t).nodes, Last(t').nodes;
            n' == n[x := n'[x]] && SameBut(n[x], n'[x], {x}) && Leading(n'[x], t.ids) && Knows(n'[x], x)
  {
    var s := Last(t).nodes[x];
    LeadingLeads(s, t.ids);
    assert SendsAll(s, t.ids);
    Confirmed(s, x, t.ids);
    hide Path, AllQuiet, Leading, SameBut, Knows, SendsAll, HandleAppendResp;
    var t1 := ConfirmOwn(g, t, x);
    t' := Hear(g, t1, Confirmation(x, x, s));
  }

  // Commitment

  /** A majority that is known to hold the log lets the leader commit all of it. */
  lemma CommitsAll(s: NodeState, voters: set<NodeId>, ids: set<NodeId>)
    requires Leading(s, ids) && voters <= ids && IsMajority(|voters|, |ids|) && forall v | v in voters :: Knows(s, v)
    ensures var k, last := CommitIfPossible(s, |ids|).commit, LastIndex(s.log);
            k >= last && (k != s.commit ==> k == last)
  {
    CardinalityOfSubset(voters, Holders(s.role.matchIndex, LastIndex(s.log)));
  }

  /** What `log` has at the first place where it does not continue with `wanted`. */
  lemma {:induction false} FirstDifference(wanted: Log, log: Log) returns (k: nat)
    requires !(wanted <= log)
    ensures k < |wanted| && k <= |log| && (k < |log| ==> log[k] != wanted[k])
  {
    k := 0;
    while k < |wanted| && k < |log| && wanted[k] == log[k]
      invariant k <= |wanted| && k <= |log| && wanted[..k] == log[..k]
    {
      k := k + 1;
    }
  }

  function Other(c: Command): Command { if c == "x" then "y" else "x" }

  /** The elected node and its voters, after it has appended one command of its own. */
  lemma LeadsWithOne(g: Guards, t: Trace, x: NodeId, voters: set<NodeId>, floor: Term, command: Command)
      returns (t': Trace)
    requires RunsTo(g, t) && Electable(Last(t), x, voters) && Sentinels(Last(t))
    ensures RunsTo(g, t') && t'.ids == t.ids && t'.states[0] == t.states[0]
    ensures var s := Last(t').nodes[x];
            && Leading(s, t.ids) && floor < s.term && s.log == Last(t).nodes[x].log + [LogItem(command, s.term)]
            && forall v | v in voters && v != x :: Follows(s, Last(t').nodes[v])
  {
    hide Path, AllQuiet;
    var t1 := ElectableWins(g, t, x, voters, floor);
    t' := ThenAppend(g, t1, x, [command]);
    assert NewItems([command], Last(t1).nodes[x].term) == [LogItem(command, Last(t1).nodes[x].term)];
  }

  /** The leader makes its voters, itself among them, hold its log. */
  lemma TeachMajority(g: Guards, t: Trace, x: NodeId, voters: set<NodeId>) returns (t': Trace)
    requires RunsTo(g, t) && x in voters && voters <= t.ids && Leading(Last(t).nodes[x], t.ids)
    requires forall v | v in voters && v != x :: Follows(Last(t).nodes[x], Last(t).nodes[v])
    ensures RunsTo(g, t') && Continues(t, t')
    ensures var s, s' := Last(t).nodes[x], Last(t').nodes[x];
            s'.role.Leader? && s' == s.(role := s'.role) && Leading(s', t.ids) && forall v | v in voters :: Knows(s', v)
  {
    LeadingLeads(Last(t).nodes[x], t.ids);
    hide Path, AllQuiet, Leading, Follows, Knows, Taught;
    var t1 := TeachSelf(g, t, x);
    SelfStillFollow(Last(t).nodes, Last(t1).nodes, x, voters - {x});
    t' := TeachAll(g, t1, x, voters - {x});
    TaughtKnow(Last(t1).nodes, Last(t').nodes, x, voters - {x}, t.ids);
    StillKnows(Last(t1).nodes[x], Last(t').nodes[x], voters - {x}, x);
  }

  lemma OwnTermAllowed(g: Guards, c: State, x: NodeId)
    requires LogsNonempty(c) && x in c.nodes && c.nodes[x].role.Leader? && LastTerm(c.nodes[x].log) == c.nodes[x].term
    requires var s := c.nodes[x]; var k := CommitIfPossible(s, |Ids(c)|).commit; k != s.commit ==> k == LastIndex(s.log)
    ensures Enabled(c, Commit(x)) && Obeys(g, c, Commit(x))
  {
    hide CommitIfPossible;
  }

  /** It then makes a majority hold its log and commits it. */
  lemma CommitsItsLog(g: Guards, t: Trace, x: NodeId, voters: set<NodeId>) returns (t': Trace)
    requires RunsTo(g, t) && x in voters && voters <= t.ids && IsMajority(|voters|, |t.ids|)
    requires var s := Last(t).nodes[x]; Leading(s, t.ids) && LastTerm(s.log) == s.term
    requires forall v | v in voters && v != x :: Follows(Last(t).nodes[x], Last(t).nodes[v])
    ensures RunsTo(g, t') && t'.ids == t.ids && t'.states[0] == t.states[0]
    ensures var s, s' := Last(t).nodes[x], Last(t').nodes[x];
            s'.log == s.log && s'.term == s.term && s'.role.Leader? && s.log != [] && s'.commit >= LastIndex(s.log)
  {
    LeadingLeads(Last(t).nodes[x], t.ids);
    hide Path, AllQuiet, Leading, Follows, Knows, IsMajority, SameBut;
    var t2 := TeachMajority(g, t, x, voters);
    var s := Last(t2).nodes[x];
    CommitsAll(s, voters, t.ids);
    OwnTermAllowed(g, Last(t2), x);
    t' := ThenCommit(g, t2, x);
  }

  /** What an electable node lacks of a node's committed entries is overwritten in some run, whatever
      guards hold: the node wins a later term and commits another entry at a committed index. */
  lemma LackingIsOverwritten(g: Guards, t: Trace, a: NodeId, x: NodeId, voters: set<NodeId>)
      returns (w: Trace, k: nat)
    requires Run(g, t) && a in Last(t).nodes && Electable(Last(t), x, voters)
    requires var s := Last(t).nodes[a]; s.commit < |s.log| && !(s.log[..s.commit + 1] <= Last(t).nodes[x].log)
    ensures Run(g, w) && t.states <= w.states && x in Last(w).nodes && Last(w).nodes[x].role.Leader?
    ensures var s, s' := Last(t).nodes[a], Last(w).nodes[x];
            s.term < s'.term && k <= s.commit && k <= s'.commit && k < |s'.log| && s'.log[k] != s.log[k]
  {
    var s := Last(t).nodes[a];
    Stays(g, t);
    RunSentinels(g, t, |t.states| - 1);
    k := FirstDifference(s.log[..s.commit + 1], Last(t).nodes[x].log);
    hide Run, Path, AllQuiet, Leading, Follows, Sentinels;
    assert x in voters && voters <= t.ids && IsMajority(|voters|, |t.ids|);
    var u := LeadsWithOne(g, At(t.ids, Last(t)), x, voters, s.term, Other(s.log[k].command));
    var u' := CommitsItsLog(g, u, x, voters);
    JoinedRuns(g, t, u');
    w := Joined(t, u');
  }
}
