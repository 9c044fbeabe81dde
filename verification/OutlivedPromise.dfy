/** A promise that outlives its leadership: a run that obeys every guard and in which a client is
    told "persisted" although its command is nowhere in the log. Nodes 1, 2 and 3. */
module OutlivedPromise {
  import opened Options
  import opened Messages
  import opened NodeSpec
  import opened Clients
  import opened Cluster
  import opened NodeActions
  import opened ClientFutures
  import opened RunSteps
  import opened Elections
  import opened Counterexamples

  const ALL: Guards := Guards(true, true, true, RECENT)

  // Days, built up event by event

  datatype Diary = Diary(offices: seq<Office>, events: seq<Event>)

  function Now(d: Diary): Office {
    if d.offices == [] then InitOffice(NODES) else d.offices[|d.offices| - 1]
  }

  predicate Sound(o: Office) {
    Ids(o.cluster) == NODES && o.desks.Keys == NODES && LogsNonempty(o.cluster)
  }

  /** The source never starts an election in a tick that began as leader. */
  predicate CanHappen(o: Office, e: Event) {
    e.Protocol? && e.action.Timeout? && e.action.id in o.cluster.nodes ==>
      !o.cluster.nodes[e.action.id].role.Leader?
  }

  ghost predicate Told(d: Diary) {
    Days(ALL, NODES, d.offices, d.events) && AllCanHappen(d.offices, d.events) && Sound(Now(d))
  }

  predicate AllCanHappen(offices: seq<Office>, events: seq<Event>) {
    |offices| == |events| + 1 && forall i | 0 <= i < |events| :: CanHappen(offices[i], events[i])
  }

  lemma Begin() returns (d: Diary)
    ensures Told(d) && Now(d) == InitOffice(NODES)
  {
    d := Diary([InitOffice(NODES)], []);
  }

  lemma DaysGoOn(offices: seq<Office>, events: seq<Event>, e: Event)
    requires Days(ALL, NODES, offices, events) && EventOk(ALL, offices[|events|], e)
    ensures Days(ALL, NODES, offices + [Happens(ALL, offices[|events|], e)], events + [e])
  {
    hide EventOk, Happens;
    var offices', events' := offices + [Happens(ALL, offices[|events|], e)], events + [e];
    forall i | 0 <= i < |events'|
      ensures EventOk(ALL, offices'[i], events'[i]) && offices'[i + 1] == Happens(ALL, offices'[i], events'[i])
    {
      if i < |events| {
        assert offices'[i] == offices[i] && offices'[i + 1] == offices[i + 1] && events'[i] == events[i];
      }
    }
  }

  lemma AllGoesOn(offices: seq<Office>, events: seq<Event>, o: Office, e: Event)
    requires AllCanHappen(offices, events) && CanHappen(offices[|events|], e)
    ensures AllCanHappen(offices + [o], events + [e])
  {
    hide CanHappen;
    forall i | 0 <= i < |events| + 1 ensures CanHappen((offices + [o])[i], (events + [e])[i]) {
      if i < |events| {
        assert (offices + [o])[i] == offices[i] && (events + [e])[i] == events[i];
      }
    }
  }

  lemma AsManyDays(d: Diary)
    requires Told(d)
    ensures |d.offices| == |d.events| + 1 && Now(d) == d.offices[|d.events|]
  {
  }

  lemma Happen(d: Diary, e: Event) returns (d': Diary)
    requires Told(d) && EventOk(ALL, Now(d), e) && CanHappen(Now(d), e) && Sound(Happens(ALL, Now(d), e))
    ensures Told(d') && Now(d') == Happens(ALL, Now(d), e)
    ensures d'.offices == d.offices + [Now(d')] && d'.events == d.events + [e]
  {
    AsManyDays(d);
    hide EventOk, Happens, CanHappen, Sound, Days, AllCanHappen;
    d' := Diary(d.offices + [Happens(ALL, Now(d), e)], d.events + [e]);
    DaysGoOn(d.offices, d.events, e);
    AllGoesOn(d.offices, d.events, Happens(ALL, Now(d), e), e);
  }

  /** No client is waiting in a queue. */
  predicate Quiet(o: Office) {
    forall id | id in o.desks :: o.desks[id].incoming == []
  }

  /** An action that appends and commits nothing leaves the clients alone. */
  lemma QuietAction(o: Office, a: Action)
    requires Sound(o) && Quiet(o) && Enabled(o.cluster, a) && Obeys(ALL, o.cluster, a) && !a.Append? && !a.Commit?
    ensures EventOk(ALL, o, Protocol(a)) && Happens(ALL, o, Protocol(a)) == o.(cluster := Next(o.cluster, a))
    ensures Sound(Happens(ALL, o, Protocol(a)))
  {
    NextIsAct(o.cluster, a);
    NextKeepsLogs(o.cluster, a);
    hide Next, Obeys;
    var id := Actor(a);
    assert DeskAct(o.cluster.nodes[id], o.desks[id], Ids(o.cluster), a) == o.desks[id];
    assert o.desks[id := o.desks[id]] == o.desks;
  }

  lemma LiveOne(d: Diary, a: Action) returns (d': Diary)
    requires Told(d) && Quiet(Now(d)) && !a.Append? && !a.Commit?
    requires Enabled(Now(d).cluster, a) && Obeys(ALL, Now(d).cluster, a) && CanHappen(Now(d), Protocol(a))
    ensures Told(d') && Now(d') == Now(d).(cluster := Next(Now(d).cluster, a)) && Quiet(Now(d'))
  {
    QuietAction(Now(d), a);
    hide Next, Obeys, Days, AllCanHappen;
    d' := Happen(d, Protocol(a));
    QuietSame(Now(d), Now(d'));
  }

  lemma {:induction false} Live(d: Diary, t: Trace, n: nat) returns (d': Diary)
    requires Told(d) && Quiet(Now(d)) && n < |t.states|
    requires RunsTo(ALL, t) && AllQuiet(t) && t.states[0] == Now(d).cluster
    ensures Told(d') && Now(d') == Now(d).(cluster := t.states[n]) && Quiet(Now(d'))
  {
    hide Told, Quiet, Next, Obeys, Enabled;
    if n == 0 {
      d' := d;
    } else {
      var before := Live(d, t, n - 1);
      var a := t.actions[n - 1];
      assert a in t.actions && StepOk(ALL, t.states[n - 1], a, t.states[n]);
      d' := LiveOne(before, a);
    }
  }

  lemma QuietSame(o: Office, o': Office)
    requires Quiet(o) && o'.desks == o.desks
    ensures Quiet(o')
  {
  }

  /** What the nodes do among themselves, the clients do not see. */
  lemma LiveOn(d: Diary, t: Trace) returns (d': Diary)
    requires Told(d) && Quiet(Now(d)) && RunsTo(ALL, t)
    requires Continues(At(NODES, Now(d).cluster), t)
    ensures Told(d') && Now(d') == Now(d).(cluster := Last(t)) && Quiet(Now(d'))
  {
    assert AllQuiet(At(NODES, Now(d).cluster));
    d' := Live(d, t, |t.states| - 1);
  }

  lemma Stand(d: Diary)
    requires Told(d)
    ensures RunsTo(ALL, At(NODES, Now(d).cluster))
    ensures Continues(At(NODES, Now(d).cluster), At(NODES, Now(d).cluster))
  {
  }

  // Clients

  /** The desk after a leader has appended the one command it was handed. */
  function Waits(k: Desk, index: nat, f: Future): Desk {
    k.(waiting := k.waiting[index := f])
  }

  lemma HandedOver(k: Desk, index: nat, request: Request)
    requires k.incoming == [] && index !in k.waiting
    ensures Commands(Submit(k, request).incoming) == [request.command]
    ensures Accept(Submit(k, request), index) == Waits(k, index, request.future)
  {
    var queued := Submit(k, request);
    assert queued.incoming == [request];
    assert AcceptHead(queued, index) == Waits(k, index, request.future);
    assert Accept(queued, index) == Accept(AcceptHead(queued, index), index + 1);
  }

  lemma OneOrigin(origins: map<Future, Origin>, request: Request, id: NodeId, term: Term, length: nat)
    ensures NewOrigins(origins, [request], id, term, length)
            == origins[request.future := Origin(id, term, length, request.command)]
  {
    assert [request][1..] == [];
  }

  lemma OneItem(s: NodeState, command: Command)
    ensures AppendCommands(s, [command]) == s.(log := s.log + [LogItem(command, s.term)])
  {
  }

  lemma HandsIn(d: Diary, id: NodeId, request: Request) returns (d': Diary)
    requires Told(d) && id in NODES && request.future !in Now(d).issued
    ensures Told(d')
    ensures var o := Now(d);
            Now(d') == o.(desks := o.desks[id := Submit(o.desks[id], request)], issued := o.issued + {request.future})
  {
    hide Days;
    d' := Happen(d, Submitted(id, request));
  }

  /** A leader with one command in its queue appends it. */
  lemma Appends(d: Diary, id: NodeId, k: Desk, request: Request) returns (d': Diary)
    requires Told(d) && id in NODES && Now(d).cluster.nodes[id].role.Leader?
    requires Now(d).desks[id] == Submit(k, request) && k.incoming == []
    requires |Now(d).cluster.nodes[id].log| !in k.waiting
    ensures Told(d') && Now(d').issued == Now(d).issued
    ensures var o, o' := Now(d), Now(d'); var s := o.cluster.nodes[id];
            && o'.cluster.nodes == o.cluster.nodes[id := s.(log := s.log + [LogItem(request.command, s.term)])]
            && o'.cluster.net == o.cluster.net
            && o'.desks == o.desks[id := Waits(k, |s.log|, request.future)]
            && o'.origins == o.origins[request.future := Origin(id, s.term, |s.log|, request.command)]
  {
    var o := Now(d);
    var s, a := o.cluster.nodes[id], Append(id, [request.command]);
    HandedOver(k, |s.log|, request);
    OneItem(s, request.command);
    OneOrigin(o.origins, request, id, s.term, |s.log|);
    assert Submit(k, request).incoming == [request];
    NextIsAct(o.cluster, a);
    NextKeepsLogs(o.cluster, a);
    hide Next, Accept, Commands, NewOrigins, Days, Submit, AppendCommands;
    assert o.cluster.net + {} == o.cluster.net;
    d' := Happen(d, Protocol(a));
  }

  /** A client hands a leader a command, and the leader appends it. */
  lemma Write(d: Diary, id: NodeId, command: Command, f: Future) returns (d': Diary)
    requires Told(d) && Quiet(Now(d)) && id in NODES && Now(d).cluster.nodes[id].role.Leader? && f !in Now(d).issued
    requires |Now(d).cluster.nodes[id].log| !in Now(d).desks[id].waiting
    ensures Told(d') && Quiet(Now(d')) && Now(d').issued == Now(d).issued + {f}
    ensures var o, o' := Now(d), Now(d'); var s := o.cluster.nodes[id];
            && o'.cluster.nodes == o.cluster.nodes[id := s.(log := s.log + [LogItem(command, s.term)])]
            && o'.cluster.net == o.cluster.net
            && o'.desks == o.desks[id := Waits(o.desks[id], |s.log|, f)]
            && o'.origins == o.origins[f := Origin(id, s.term, |s.log|, command)]
  {
    var k, request := Now(d).desks[id], Request(command, f);
    hide Told, Submit;
    var d1 := HandsIn(d, id, request);
    d' := Appends(d1, id, k, request);
  }

  // The run

  const X: LogItem := LogItem("x", 1)
  const Y: LogItem := LogItem("y", 2)
  const Z: LogItem := LogItem("z", 3)

  lemma EmptyWillGrant(v: NodeState, s: NodeState)
    requires v.log == [SENTINEL] && s.log != [] && v.term <= s.term
    ensures UpToDate(LastTerm(s.log), LastIndex(s.log), v.log)
  {
  }

  /** Node 1 leads term 1. */
  lemma FirstLeads() returns (d: Diary)
    ensures Told(d) && Quiet(Now(d)) && Now(d) == InitOffice(NODES).(cluster := Now(d).cluster)
    ensures var n := Now(d).cluster.nodes;
            && n[1] == BecomeLeader(INITIAL.(term := 1), NODES)
            && n[2] == NodeState(1, Some(1), [SENTINEL], 0, Follower) && n[3] == INITIAL
  {
    var d0 := Begin();
    Stand(d0);
    EmptyWillGrant(INITIAL, INITIAL);
    hide Path, Told, UpToDate;
    var t := ElectWith(ALL, At(NODES, Now(d0).cluster), 1, 2);
    d := LiveOn(d0, t);
  }

  /** ... and appends "x" for future 0. */
  lemma FirstTerm() returns (d: Diary)
    ensures Told(d) && Quiet(Now(d)) && Now(d).issued == {0}
    ensures var o := Now(d); var n := o.cluster.nodes;
            && n[1] == BecomeLeader(INITIAL.(term := 1), NODES).(log := [SENTINEL, X])
            && n[2] == NodeState(1, Some(1), [SENTINEL], 0, Follower) && n[3] == INITIAL
            && o.desks[1] == Waits(EMPTY, 1, 0) && o.desks[2] == EMPTY && o.desks[3] == EMPTY
            && o.origins == map[0 := Origin(1, 1, 1, "x")]
  {
    hide Told, Quiet;
    var d0 := FirstLeads();
    d := Write(d0, 1, "x", 0);
  }

  /** Node 3 leads term 2. */
  lemma ThirdLeads(d: Diary) returns (d': Diary)
    requires Told(d) && Quiet(Now(d)) && Now(d).cluster.nodes[3] == INITIAL
    requires Now(d).cluster.nodes[2] == NodeState(1, Some(1), [SENTINEL], 0, Follower)
    ensures Told(d') && Quiet(Now(d')) && Now(d') == Now(d).(cluster := Now(d').cluster)
    ensures var n, n' := Now(d).cluster.nodes, Now(d').cluster.nodes;
            && n'[1] == n[1] && n'[2] == NodeState(2, Some(3), [SENTINEL], 0, Follower)
            && n'[3] == BecomeLeader(INITIAL.(term := 2), NODES)
  {
    Stand(d);
    hide Path, Told, Quiet;
    var t1 := ThenTimeout(ALL, At(NODES, Now(d).cluster), 3);
    EmptyWillGrant(Last(t1).nodes[2], Last(t1).nodes[3]);
    hide UpToDate;
    var t2 := ElectWith(ALL, t1, 3, 2);
    d' := LiveOn(d, t2);
  }

  lemma CopyOfOne(s: NodeState, f: NodeState, to: NodeId)
    requires s.role.Leader? && Lookup(s.role.nextIndex, to) == 1 && s.commit == 0
    requires s.log == [SENTINEL, Y] && f.log == [SENTINEL, X] && f.term < s.term
    ensures CanCopy(s, f, to)
  {
    assert f.log[..1] == s.log[..1];
    assert s.log[1] != f.log[1];
  }

  /** Node 3 appends "y" and overwrites node 1's entry; what waits at node 1 stays. */
  lemma SecondTerm(d: Diary) returns (d': Diary)
    requires Told(d) && Quiet(Now(d)) && Now(d).issued == {0} && Now(d).desks[3] == EMPTY
    requires var n := Now(d).cluster.nodes;
             && n[1] == BecomeLeader(INITIAL.(term := 1), NODES).(log := [SENTINEL, X])
             && n[3] == BecomeLeader(INITIAL.(term := 2), NODES)
    ensures Told(d') && Quiet(Now(d')) && Now(d').issued == {0, 1}
    ensures var o, o' := Now(d), Now(d'); var n, n' := o.cluster.nodes, o'.cluster.nodes;
            && n'[1] == NodeState(2, None, [SENTINEL, Y], 0, Follower) && n'[2] == n[2]
            && n'[3] == BecomeLeader(INITIAL.(term := 2), NODES).(log := [SENTINEL, Y])
            && o'.desks[1] == o.desks[1]
            && o'.origins == o.origins[1 := Origin(3, 2, 1, "y")]
  {
    hide Told, Quiet;
    var d1 := Write(d, 3, "y", 1);
    Stand(d1);
    var n := Now(d1).cluster.nodes;
    assert n[3].log == [SENTINEL, Y];
    CopyOfOne(n[3], n[1], 1);
    hide Path, Told, Quiet, CanCopy;
    var t1 := Copy(ALL, At(NODES, Now(d1).cluster), 3, 1);
    d' := LiveOn(d1, t1);
  }

  /** Node 1 leads term 3 with node 2's vote. */
  lemma FirstLeadsAgain(d: Diary) returns (d': Diary)
    requires Told(d) && Quiet(Now(d))
    requires var n := Now(d).cluster.nodes;
             && n[1] == NodeState(2, None, [SENTINEL, Y], 0, Follower)
             && n[2] == NodeState(2, Some(3), [SENTINEL], 0, Follower)
    ensures Told(d') && Quiet(Now(d')) && Now(d') == Now(d).(cluster := Now(d').cluster)
    ensures var n, n' := Now(d).cluster.nodes, Now(d').cluster.nodes;
            n'[1] == BecomeLeader(NodeState(3, None, [SENTINEL, Y], 0, Follower), NODES) && n'[3] == n[3]
  {
    Stand(d);
    EmptyWillGrant(Now(d).cluster.nodes[2], Now(d).cluster.nodes[1]);
    hide Path, Told, Quiet, UpToDate;
    var t := ElectWith(ALL, At(NODES, Now(d).cluster), 1, 2);
    d' := LiveOn(d, t);
    SameLeader(NodeState(3, None, [SENTINEL, Y], 0, Follower), Follower, NODES);
  }

  /** ... and appends "z" for future 2. */
  lemma ThirdTerm(d: Diary) returns (d': Diary)
    requires Told(d) && Quiet(Now(d)) && Now(d).issued == {0, 1} && Now(d).desks[1] == Waits(EMPTY, 1, 0)
    requires var n := Now(d).cluster.nodes;
             && n[1] == NodeState(2, None, [SENTINEL, Y], 0, Follower)
             && n[2] == NodeState(2, Some(3), [SENTINEL], 0, Follower)
    ensures Told(d') && Quiet(Now(d'))
    ensures var o, o' := Now(d), Now(d'); var n, n' := o.cluster.nodes, o'.cluster.nodes;
            && n'[1] == BecomeLeader(NodeState(3, None, [SENTINEL, Y], 0, Follower), NODES).(log := [SENTINEL, Y, Z])
            && n'[3] == n[3]
            && o'.desks[1] == Waits(Waits(EMPTY, 1, 0), 2, 2)
            && o'.origins == o.origins[2 := Origin(1, 3, 2, "z")]
  {
    hide Told, Quiet;
    var d1 := FirstLeadsAgain(d);
    d' := Write(d1, 1, "z", 2);
  }

  lemma CopyOfTwo(s: NodeState, f: NodeState, to: NodeId)
    requires s.role.Leader? && Lookup(s.role.nextIndex, to) == 2 && s.commit == 0
    requires s.log == [SENTINEL, Y, Z] && f.log == [SENTINEL, Y] && f.term < s.term && f.commit == 0
    ensures CanCopy(s, f, to)
  {
    assert f.log[..2] == s.log[..2];
  }

  /** What node 1 knows when 1 and 3 have confirmed its last entry. */
  function BothKnown(): Role {
    Leader((map i | i in NODES :: 2)[1 := 3][3 := 3], (map i | i in NODES :: 0)[1 := 2][3 := 2])
  }

  lemma KnowsBoth(s: NodeState)
    requires s == BecomeLeader(NodeState(3, None, [SENTINEL, Y], 0, Follower), NODES).(log := [SENTINEL, Y, Z])
    ensures s.log != []
    ensures var s1 := HandleAppendResp(s, Confirmation(1, 1, s).body.appendResp, 1);
            HandleAppendResp(s1, Confirmation(3, 1, s).body.appendResp, 3) == s.(role := BothKnown())
  {
  }

  /** Nodes 1 and 3 hold the new entry and node 1 hears of it. */
  lemma Replicates(d: Diary) returns (d': Diary)
    requires Told(d) && Quiet(Now(d))
    requires var n := Now(d).cluster.nodes;
             && n[1] == BecomeLeader(NodeState(3, None, [SENTINEL, Y], 0, Follower), NODES).(log := [SENTINEL, Y, Z])
             && n[3] == BecomeLeader(INITIAL.(term := 2), NODES).(log := [SENTINEL, Y])
    ensures Told(d') && Quiet(Now(d')) && Now(d') == Now(d).(cluster := Now(d').cluster)
    ensures Now(d').cluster.nodes[1] == NodeState(3, None, [SENTINEL, Y, Z], 0, BothKnown())
  {
    Stand(d);
    var s, f := Now(d).cluster.nodes[1], Now(d).cluster.nodes[3];
    CopyOfTwo(s, f, 3);
    KnowsBoth(s);
    hide Path, Told, Quiet, CanCopy, HandleAppendResp, BothKnown;
    var t1 := Copy(ALL, At(NODES, Now(d).cluster), 1, 3);
    var t2 := ConfirmOwn(ALL, t1, 1);
    var t3 := Hear(ALL, t2, Confirmation(1, 1, s));
    var t4 := Hear(ALL, t3, Confirmation(3, 1, s));
    d' := LiveOn(d, t4);
  }

  lemma CommitsBoth(s: NodeState)
    requires s == NodeState(3, None, [SENTINEL, Y, Z], 0, BothKnown())
    ensures CommitIfPossible(s, |NODES|) == s.(commit := 2)
  {
    assert Holders(s.role.matchIndex, 2) == {1, 3};
    assert |{1, 3}| == 2;
  }

  lemma FirstIsAnswered(k: Desk)
    requires k == Waits(Waits(EMPTY, 1, 0), 2, 2)
    ensures var k' := Persist(k, 0, 2); 0 in k'.answers && k'.answers[0] == Persisted
  {
    CommitmentAnswers(k, 0, 2);
    assert 1 in k.waiting && 0 in WaitingWithin(k, 0, 2);
  }

  lemma BothMayBeCommitted(o: Office)
    requires Sound(o) && o.cluster.nodes[1] == NodeState(3, None, [SENTINEL, Y, Z], 0, BothKnown())
    ensures EventOk(ALL, o, Protocol(Commit(1)))
  {
    CommitsBoth(o.cluster.nodes[1]);
    hide CommitIfPossible, BothKnown;
  }

  /** The commit rule answers what waits at indices 1 and 2. */
  lemma CommitAnswers(o: Office)
    requires Sound(o) && o.cluster.nodes[1] == NodeState(3, None, [SENTINEL, Y, Z], 0, BothKnown())
    requires o.desks[1] == Waits(Waits(EMPTY, 1, 0), 2, 2)
    ensures EventOk(ALL, o, Protocol(Commit(1)))
    ensures var o' := Happens(ALL, o, Protocol(Commit(1)));
            && Sound(o') && o'.cluster.nodes[1] == NodeState(3, None, [SENTINEL, Y, Z], 2, BothKnown())
            && 0 in o'.desks[1].answers && o'.desks[1].answers[0] == Persisted
  {
    BothMayBeCommitted(o);
    CommitsBoth(o.cluster.nodes[1]);
    FirstIsAnswered(o.desks[1]);
    NextIsAct(o.cluster, Commit(1));
    NextKeepsLogs(o.cluster, Commit(1));
    hide Next, Persist, CommitIfPossible, BothKnown, EventOk, Waits, LogsNonempty;
  }

  /** Node 1 leads term 3 with "y" and "z" confirmed, and future 0 still waits for "x". */
  lemma ReadyToCommit() returns (d: Diary)
    ensures Told(d) && Quiet(Now(d))
    ensures var o := Now(d);
            && o.cluster.nodes[1] == NodeState(3, None, [SENTINEL, Y, Z], 0, BothKnown())
            && o.desks[1] == Waits(Waits(EMPTY, 1, 0), 2, 2)
            && 0 in o.origins && o.origins[0] == Origin(1, 1, 1, "x")
  {
    hide Days, Told, Quiet, BecomeLeader, BothKnown;
    var d1 := FirstTerm();
    var d2 := ThirdLeads(d1);
    var d3 := SecondTerm(d2);
    var d4 := ThirdTerm(d3);
    d := Replicates(d4);
  }

  /** Under all guards a client can be told "persisted" while its command is not in the log:
      future 0 waited for "x" at index 1 of node 1, where the committed entry is "y". */
  lemma PersistedIsAnothers() returns (offices: seq<Office>, events: seq<Event>, i: nat)
    ensures Days(ALL, NODES, offices, events) && i < |events|
    ensures AllCanHappen(offices, events)
    ensures 1 in offices[i].desks && 0 !in offices[i].desks[1].answers
    ensures 1 in offices[i + 1].desks && 0 in offices[i + 1].desks[1].answers
    ensures offices[i + 1].desks[1].answers[0] == Persisted
    ensures 0 in offices[i].origins && offices[i].origins[0] == Origin(1, 1, 1, "x")
    ensures 1 in offices[i + 1].cluster.nodes
    ensures var s := offices[i + 1].cluster.nodes[1];
            s.commit == 2 && s.log == [SENTINEL, LogItem("y", 2), LogItem("z", 3)]
  {
    var d := ReadyToCommit();
    AsManyDays(d);
    CommitAnswers(Now(d));
    hide Days, AllCanHappen, Happens, EventOk, BothKnown;
    var d' := Happen(d, Protocol(Commit(1)));
    offices, events, i := d'.offices, d'.events, |d.events|;
    assert offices[i] == Now(d) && offices[i + 1] == Now(d');
  }
}
