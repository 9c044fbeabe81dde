/** A client that is sent to another node can safely ask again: its command has been appended to no
    log and never will be. This needs no guard. */
module SafeRetries {
  import opened Messages
  import opened NodeSpec
  import opened Clients
  import opened Cluster
  import opened NodeActions
  import opened ClientFutures

  /** The command of `f` is still in the queue, or its client was sent to another node. */
  predicate Unsent(d: Desk, f: Future) {
    f in Queued(d) || (f in d.answers && d.answers[f].Redirected?)
  }

  lemma RedirectKeepsUnsent(d: Desk, leader: NodeId, f: Future)
    requires Tidy(d)
    ensures Unsent(Redirect(d, leader), f) <==> Unsent(d, f)
  {
    RedirectAnswers(d, leader);
  }

  lemma PersistKeepsUnsent(d: Desk, lo: nat, hi: nat, f: Future)
    requires Tidy(d)
    ensures Unsent(Persist(d, lo, hi), f) <==> Unsent(d, f)
  {
    CommitmentAnswers(d, lo, hi);
    assert WaitingWithin(d, lo, hi) <= d.waiting.Values;
    assert Queued(Persist(d, lo, hi)) == Queued(d);
  }

  lemma AcceptSends(d: Desk, length: nat, f: Future)
    requires Tidy(d)
    ensures Unsent(Accept(d, length), f) <==> Unsent(d, f) && f !in Queued(d)
  {
    AcceptPreserves(d, length);
    EmptyQueue(Accept(d, length));
  }

  lemma DeskActSends(s: NodeState, d: Desk, ids: set<NodeId>, a: Action, f: Future)
    requires ActDefined(s, ids, a) && Tidy(d)
    ensures Unsent(DeskAct(s, d, ids, a), f) <==> Unsent(d, f) && !(a.Append? && f in Queued(d))
  {
    hide Unsent, Tidy, HandleAppendReq, HighestHeld;
    match a
    case Deliver(p) =>
      if p.body.AppendReq? {
        RedirectKeepsUnsent(d, p.body.appendReq.leaderId, f);
      }
    case Commit(_) => PersistKeepsUnsent(d, s.commit, CommitIfPossible(s, |ids|).commit, f);
    case Append(_, _) => AcceptSends(d, |s.log|, f);
    case _ =>
  }

  /** A future's command has been appended exactly if it is not unsent. */
  ghost predicate AppendedOrUnsent(o: Office) {
    && o.origins.Keys <= o.issued
    && forall id, f | id in o.desks && f in Futures(o.desks[id]) :: f in o.origins <==> !Unsent(o.desks[id], f)
  }

  lemma OriginKeys(g: Guards, o: Office, a: Action)
    requires Accounted(o) && AppendedOrUnsent(o) && EventOk(g, o, Protocol(a))
    ensures Actor(a) in o.desks && Actor(a) in o.cluster.nodes
    ensures Happens(g, o, Protocol(a)).origins.Keys ==
      o.origins.Keys + if a.Append? then Queued(o.desks[Actor(a)]) else {}
  {
    if a.Append? {
      var d := o.desks[a.id];
      hide Next, DeskAct, Enabled, Obeys, ActDefined;
      assert forall k | 0 <= k < |d.incoming| :: d.incoming[k].future in Queued(d);
      assert Queued(d) <= Futures(d);
      NewOriginsOf(o.origins, d.incoming, a.id, o.cluster.nodes[a.id].term, |o.cluster.nodes[a.id].log|);
    }
  }

  lemma ProtocolKeepsAppended(g: Guards, o: Office, a: Action)
    requires Accounted(o) && AppendedOrUnsent(o) && EventOk(g, o, Protocol(a))
    ensures AppendedOrUnsent(Happens(g, o, Protocol(a)))
  {
    var o', id := Happens(g, o, Protocol(a)), Actor(a);
    OriginKeys(g, o, a);
    var d := o.desks[id];
    assert ActDefined(o.cluster.nodes[id], Ids(o.cluster), a) && Tidy(d);
    DeskActPreserves(o.cluster.nodes[id], d, Ids(o.cluster), a);
    assert Queued(d) <= Futures(d);
    hide Unsent, Tidy, Futures, DeskAct, Next, ActDefined, Enabled, Obeys, Queued;
    forall j, f | j in o'.desks && f in Futures(o'.desks[j]) ensures f in o'.origins <==> !Unsent(o'.desks[j], f) {
      if j == id {
        DeskActSends(o.cluster.nodes[id], d, Ids(o.cluster), a, f);
      } else {
        assert f in Futures(o.desks[j]) && Futures(o.desks[j]) !! Futures(d);
      }
    }
  }

  lemma SubmitIsUnsent(d: Desk, request: Request, f: Future)
    ensures Unsent(Submit(d, request), f) <==> Unsent(d, f) || f == request.future
  {
    SubmittedQueue(d, request);
  }

  lemma SubmissionKeepsAppended(g: Guards, o: Office, id: NodeId, request: Request)
    requires Accounted(o) && AppendedOrUnsent(o) && EventOk(g, o, Submitted(id, request))
    ensures AppendedOrUnsent(Happens(g, o, Submitted(id, request)))
  {
    var o' := Happens(g, o, Submitted(id, request));
    SubmitAddsOne(o.desks[id], request);
    hide Unsent, Tidy, Futures, Submit;
    forall j, f | j in o'.desks && f in Futures(o'.desks[j]) ensures f in o'.origins <==> !Unsent(o'.desks[j], f) {
      if j == id {
        SubmitIsUnsent(o.desks[id], request, f);
      }
    }
  }

  lemma FirstDay(ids: set<NodeId>)
    ensures AppendedOrUnsent(InitOffice(ids))
  {
  }

  lemma {:induction false} DaysAppended(g: Guards, ids: set<NodeId>, offices: seq<Office>, events: seq<Event>, i: nat)
    requires Days(g, ids, offices, events) && i < |offices|
    ensures AppendedOrUnsent(offices[i])
  {
    hide Days, AppendedOrUnsent, Accounted, EventOk, Happens, InitOffice;
    if i == 0 {
      DaysBegin(g, ids, offices, events);
      FirstDay(ids);
    } else {
      FuturesConserved(g, ids, offices, events, i - 1);
      DaysAppended(g, ids, offices, events, i - 1);
      DayAt(g, ids, offices, events, i - 1);
      match events[i - 1]
      case Protocol(a) => ProtocolKeepsAppended(g, offices[i - 1], a);
      case Submitted(id, request) => SubmissionKeepsAppended(g, offices[i - 1], id, request);
    }
  }

  /** At every moment, whatever the guards: a future's command has been appended to some log if and only
      if it is no longer queued and its client has not been sent to another node. */
  lemma AppendedIff(g: Guards, ids: set<NodeId>, offices: seq<Office>, events: seq<Event>, i: nat, id: NodeId,
                    f: Future)
    requires Days(g, ids, offices, events) && i < |offices|
    requires id in offices[i].desks && f in Futures(offices[i].desks[id])
    ensures f in offices[i].origins <==> !Unsent(offices[i].desks[id], f)
  {
    DaysAppended(g, ids, offices, events, i);
  }

  lemma {:induction false} OriginsGrow(g: Guards, ids: set<NodeId>, offices: seq<Office>, events: seq<Event>, i: nat,
                                       j: nat)
    requires Days(g, ids, offices, events) && i <= j < |offices|
    ensures offices[i].origins.Keys <= offices[j].origins.Keys
    decreases j - i
  {
    hide Days, AppendedOrUnsent, Accounted, EventOk, Happens;
    if i < j {
      OriginsGrow(g, ids, offices, events, i, j - 1);
      FuturesConserved(g, ids, offices, events, j - 1);
      DaysAppended(g, ids, offices, events, j - 1);
      DayAt(g, ids, offices, events, j - 1);
      OriginsStep(g, offices[j - 1], events[j - 1]);
    }
  }

  lemma OriginsStep(g: Guards, o: Office, e: Event)
    requires Accounted(o) && AppendedOrUnsent(o) && EventOk(g, o, e)
    ensures o.origins.Keys <= Happens(g, o, e).origins.Keys
  {
    if e.Protocol? {
      OriginKeys(g, o, e.action);
    }
  }

  /** A client that is ever sent to another node can ask again without risk: its command is in no
      log's history, before or after. */
  lemma RedirectedNeverAppended(g: Guards, ids: set<NodeId>, offices: seq<Office>, events: seq<Event>, i: nat, j: nat,
                                id: NodeId, f: Future)
    requires Days(g, ids, offices, events) && i < |offices| && j < |offices|
    requires id in offices[i].desks && f in offices[i].desks[id].answers && offices[i].desks[id].answers[f].Redirected?
    ensures f !in offices[j].origins
  {
    hide Days;
    if i <= j {
      AnsweredOnce(g, ids, offices, events, i, j, id, f);
      AppendedIff(g, ids, offices, events, j, id, f);
    } else {
      OriginsGrow(g, ids, offices, events, j, i);
      AppendedIff(g, ids, offices, events, i, id, f);
    }
  }
}
