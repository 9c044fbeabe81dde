/** Every client command's future is in exactly one place, is answered at most once, and an
    answer "persisted" in the leadership that appended the command is about that command. */
module ClientFutures {
  import opened Messages
  import opened NodeSpec
  import opened Clients
  import opened Cluster
  import opened NodeActions
  import opened CoreInvariant
  import opened CoreFrame
  import opened CoreStep
  import opened LeaderStep

  // One desk

  function Queued(d: Desk): set<Future> {
    set k | 0 <= k < |d.incoming| :: d.incoming[k].future
  }

  function Futures(d: Desk): set<Future> {
    Queued(d) + d.waiting.Values + d.answers.Keys + d.dropped
  }

  /** No future is in two places, or twice in one. */
  ghost predicate Tidy(d: Desk) {
    && (forall i, j | 0 <= i < j < |d.incoming| :: d.incoming[i].future != d.incoming[j].future)
    && (forall i, j | i in d.waiting && j in d.waiting && i != j :: d.waiting[i] != d.waiting[j])
    && Queued(d) !! d.waiting.Values !! d.answers.Keys !! d.dropped
  }

  /** The same futures, tidy as before, and no answer lost or changed. */
  ghost predicate Preserves(d: Desk, d': Desk) {
    && (Tidy(d) ==> Tidy(d'))
    && Futures(d') == Futures(d)
    && (Tidy(d) ==> forall f | f in d.answers :: f in d'.answers && d'.answers[f] == d.answers[f])
  }

  lemma QueueHead(d: Desk)
    requires d.incoming != []
    ensures var rest := d.(incoming := d.incoming[1..]);
            Queued(d) == Queued(rest) + {d.incoming[0].future} && (Tidy(d) ==> d.incoming[0].future !in Queued(rest))
  {
    var rest := d.(incoming := d.incoming[1..]);
    forall k | 1 <= k < |d.incoming| ensures d.incoming[k].future in Queued(rest) {
      assert rest.incoming[k - 1] == d.incoming[k];
    }
  }

  lemma {:induction false} RedirectPreserves(d: Desk, leader: NodeId)
    ensures Preserves(d, Redirect(d, leader)) && Redirect(d, leader).incoming == []
    decreases |d.incoming|
  {
    if d.incoming != [] {
      var f := d.incoming[0].future;
      var rest := d.(incoming := d.incoming[1..], answers := d.answers[f := Redirected(leader)]);
      QueueHead(d);
      assert Queued(rest) == Queued(d.(incoming := d.incoming[1..]));
      RedirectPreserves(rest, leader);
      assert Futures(rest) == Futures(d);
    }
  }

  lemma WaitingUpdate(m: map<nat, Future>, k: nat, f: Future)
    requires forall i, j | i in m && j in m && i != j :: m[i] != m[j]
    ensures m[k := f].Values == (m.Values - (if k in m then {m[k]} else {})) + {f}
  {
    var m' := m[k := f];
    forall v | v in m.Values && (k in m ==> v != m[k]) ensures v in m'.Values {
      var i :| i in m && m[i] == v;
      assert m'[i] == v;
    }
    assert m'[k] == f;
  }

  lemma WaitingKeepsAll(m: map<nat, Future>, k: nat, f: Future)
    ensures m[k := f].Values + (if k in m then {m[k]} else {}) == m.Values + {f}
  {
    var m' := m[k := f];
    forall v | v in m.Values && (k in m ==> v != m[k]) ensures v in m'.Values {
      var i :| i in m && m[i] == v;
      assert m'[i] == v;
    }
    assert m'[k] == f;
  }

  /** One step of accepting keeps the desk tidy and shortens the queue by its head. */
  lemma HeadPreserves(d: Desk, length: nat)
    requires d.incoming != []
    ensures var rest := AcceptHead(d, length);
            Preserves(d, rest) && rest.answers == d.answers && Queued(d) == Queued(rest) + {d.incoming[0].future}
  {
    var rest := AcceptHead(d, length);
    QueueHead(d);
    assert Queued(rest) == Queued(d.(incoming := d.incoming[1..]));
    WaitingKeepsAll(d.waiting, length, d.incoming[0].future);
    if Tidy(d) {
      WaitingUpdate(d.waiting, length, d.incoming[0].future);
    }
  }

  lemma {:induction false} AcceptPreserves(d: Desk, length: nat)
    ensures Preserves(d, Accept(d, length))
    ensures Accept(d, length).answers == d.answers && Accept(d, length).incoming == []
    decreases |d.incoming|
  {
    hide Tidy, Futures;
    if d.incoming != [] {
      HeadPreserves(d, length);
      AcceptPreserves(AcceptHead(d, length), length + 1);
    }
  }

  lemma WaitingRemoved(m: map<nat, Future>, k: nat)
    requires k in m
    ensures (m - {k}).Values + {m[k]} == m.Values
    ensures (forall i, j | i in m && j in m && i != j :: m[i] != m[j]) ==> m[k] !in (m - {k}).Values
  {
    forall v | v in m.Values && v != m[k] ensures v in (m - {k}).Values {
      var i :| i in m && m[i] == v;
      assert (m - {k})[i] == v;
    }
  }

  lemma {:induction false} PersistPreserves(d: Desk, lo: nat, hi: nat)
    ensures Preserves(d, Persist(d, lo, hi)) && Persist(d, lo, hi).incoming == d.incoming
    decreases hi - lo
  {
    if lo < hi {
      if lo + 1 in d.waiting {
        var next := d.(waiting := d.waiting - {lo + 1}, answers := d.answers[d.waiting[lo + 1] := Persisted]);
        WaitingRemoved(d.waiting, lo + 1);
        assert Queued(next) == Queued(d);
        PersistPreserves(next, lo + 1, hi);
      } else {
        PersistPreserves(d, lo + 1, hi);
      }
    }
  }

  // What the answers are

  /** Hearing from a leader answers exactly the queued futures, all with that leader. */
  lemma {:induction false} RedirectAnswers(d: Desk, leader: NodeId)
    ensures var d' := Redirect(d, leader);
            && d'.incoming == [] && d'.waiting == d.waiting && d'.dropped == d.dropped
            && d'.answers.Keys == d.answers.Keys + Queued(d)
            && forall f | f in d'.answers ::
                 d'.answers[f] == if f in Queued(d) then Redirected(leader) else d.answers[f]
    decreases |d.incoming|
  {
    if d.incoming != [] {
      var f := d.incoming[0].future;
      var rest := d.(incoming := d.incoming[1..], answers := d.answers[f := Redirected(leader)]);
      QueueHead(d);
      assert Queued(rest) == Queued(d.(incoming := d.incoming[1..]));
      RedirectAnswers(rest, leader);
    }
  }

  /** The futures of the entries at `lo+1..hi`. */
  function WaitingWithin(d: Desk, lo: nat, hi: nat): set<Future> {
    set k | k in d.waiting && lo < k <= hi :: d.waiting[k]
  }

  lemma WaitingStep(d: Desk, lo: nat, hi: nat)
    requires lo < hi
    ensures lo + 1 in d.waiting ==>
      WaitingWithin(d, lo, hi) == WaitingWithin(d.(waiting := d.waiting - {lo + 1}), lo + 1, hi) + {d.waiting[lo + 1]}
    ensures lo + 1 !in d.waiting ==> WaitingWithin(d, lo, hi) == WaitingWithin(d, lo + 1, hi)
  {
    if lo + 1 in d.waiting {
      var rest := d.(waiting := d.waiting - {lo + 1});
      forall f | f in WaitingWithin(d, lo, hi) ensures f in WaitingWithin(rest, lo + 1, hi) + {d.waiting[lo + 1]} {
        var k :| k in d.waiting && lo < k <= hi && d.waiting[k] == f;
        assert k != lo + 1 ==> k in rest.waiting && rest.waiting[k] == f;
      }
    }
  }

  /** Commitment answers exactly the futures that wait in the committed range, all as
      persisted, and these wait no more. */
  lemma {:induction false} CommitmentAnswers(d: Desk, lo: nat, hi: nat)
    ensures var d', fs := Persist(d, lo, hi), WaitingWithin(d, lo, hi);
            && d'.incoming == d.incoming && d'.dropped == d.dropped
            && d'.waiting == d.waiting - (set k | k in d.waiting && lo < k <= hi)
            && d'.answers.Keys == d.answers.Keys + fs
            && forall f | f in d'.answers :: d'.answers[f] == if f in fs then Persisted else d.answers[f]
    decreases hi - lo
  {
    if lo < hi {
      WaitingStep(d, lo, hi);
      if lo + 1 in d.waiting {
        var rest := d.(waiting := d.waiting - {lo + 1}, answers := d.answers[d.waiting[lo + 1] := Persisted]);
        CommitmentAnswers(rest, lo + 1, hi);
      } else {
        CommitmentAnswers(d, lo + 1, hi);
      }
    }
  }

  lemma DeskActPreserves(s: NodeState, d: Desk, ids: set<NodeId>, a: Action)
    requires ActDefined(s, ids, a)
    ensures Preserves(d, DeskAct(s, d, ids, a))
  {
    hide Preserves, HandleAppendReq, HighestHeld;
    StaysPut(d);
    match a
    case Deliver(p) =>
      if p.body.AppendReq? {
        RedirectPreserves(d, p.body.appendReq.leaderId);
      }
    case Commit(_) => PersistPreserves(d, s.commit, CommitIfPossible(s, |ids|).commit);
    case Append(_, _) => AcceptPreserves(d, |s.log|);
    case _ =>
  }

  lemma StaysPut(d: Desk)
    ensures Preserves(d, d)
  {
  }

  // The whole cluster with its clients

  /** Which leadership appended a command, and where. */
  datatype Origin = Origin(node: NodeId, term: Term, index: nat, command: Command)

  datatype Office = Office(cluster: State, desks: map<NodeId, Desk>, origins: map<Future, Origin>, issued: set<Future>)

  datatype Event =
    | Protocol(action: Action)
    | Submitted(id: NodeId, request: Request)

  function NewOrigins(origins: map<Future, Origin>, queue: seq<Request>, id: NodeId, term: Term,
                      length: nat): map<Future, Origin>
    decreases |queue|
  {
    if queue == [] then origins
    else
      var origin := Origin(id, term, length, queue[0].command);
      NewOrigins(origins[queue[0].future := origin], queue[1..], id, term, length + 1)
  }

  function InitOffice(ids: set<NodeId>): Office {
    Office(Init(ids), map id | id in ids :: EMPTY, map[], {})
  }

  predicate EventOk(g: Guards, o: Office, e: Event) {
    && o.desks.Keys == Ids(o.cluster)
    && match e
       case Protocol(a) =>
         && Enabled(o.cluster, a) && Obeys(g, o.cluster, a) && ActDefined(o.cluster.nodes[Actor(a)], Ids(o.cluster), a)
         && (a.Append? ==> a.commands == Commands(o.desks[a.id].incoming))
       case Submitted(id, request) => id in o.desks && request.future !in o.issued
  }

  function Happens(g: Guards, o: Office, e: Event): Office
    requires EventOk(g, o, e)
  {
    match e
    case Protocol(a) =>
      var id := Actor(a);
      var s, d := o.cluster.nodes[id], o.desks[id];
      Office(Next(o.cluster, a),
        o.desks[id := DeskAct(s, d, Ids(o.cluster), a)],
        if a.Append? then NewOrigins(o.origins, d.incoming, id, s.term, |s.log|) else o.origins,
        o.issued)
    case Submitted(id, request) =>
      o.(desks := o.desks[id := Submit(o.desks[id], request)], issued := o.issued + {request.future})
  }

  ghost predicate Days(g: Guards, ids: set<NodeId>, offices: seq<Office>, events: seq<Event>) {
    && |offices| == |events| + 1 && offices[0] == InitOffice(ids)
    && forall i | 0 <= i < |events| ::
      EventOk(g, offices[i], events[i]) && offices[i + 1] == Happens(g, offices[i], events[i])
  }

  lemma DaysBegin(g: Guards, ids: set<NodeId>, offices: seq<Office>, events: seq<Event>)
    requires Days(g, ids, offices, events)
    ensures |offices| == |events| + 1 && offices[0] == InitOffice(ids)
  {
  }

  lemma DayAt(g: Guards, ids: set<NodeId>, offices: seq<Office>, events: seq<Event>, i: nat)
    requires Days(g, ids, offices, events) && i + 1 < |offices|
    ensures i < |events| && EventOk(g, offices[i], events[i])
    ensures offices[i + 1] == Happens(g, offices[i], events[i])
  {
  }

  // Conservation, for every run of the source as it is

  /** Every issued future is at exactly one node, in exactly one place there. */
  ghost predicate Accounted(o: Office) {
    && o.desks.Keys == Ids(o.cluster)
    && (forall id | id in o.desks :: Tidy(o.desks[id]) && Futures(o.desks[id]) <= o.issued)
    && (forall i, j | i in o.desks && j in o.desks && i != j :: Futures(o.desks[i]) !! Futures(o.desks[j]))
    && (forall f | f in o.issued :: exists id :: id in o.desks && f in Futures(o.desks[id]))
  }

  lemma SubmitAddsOne(d: Desk, request: Request)
    requires Tidy(d) && request.future !in Futures(d)
    ensures Tidy(Submit(d, request)) && Futures(Submit(d, request)) == Futures(d) + {request.future}
  {
    var d' := Submit(d, request);
    assert forall k | 0 <= k < |d.incoming| :: d'.incoming[k] == d.incoming[k];
    assert d'.incoming[|d.incoming|] == request;
    assert Queued(d') == Queued(d) + {request.future};
  }

  lemma ProtocolKeepsAccounts(g: Guards, o: Office, a: Action)
    requires Accounted(o) && EventOk(g, o, Protocol(a))
    ensures Accounted(Happens(g, o, Protocol(a)))
  {
    hide Tidy, Futures, DeskAct, Next, ActDefined;
    var o' := Happens(g, o, Protocol(a));
    var id := Actor(a);
    DeskActPreserves(o.cluster.nodes[id], o.desks[id], Ids(o.cluster), a);
    NextIsAct(o.cluster, a);
    assert o'.desks.Keys == Ids(o'.cluster);
    forall f | f in o'.issued ensures exists id :: id in o'.desks && f in Futures(o'.desks[id]) {
      var j :| j in o.desks && f in Futures(o.desks[j]);
      assert j in o'.desks && f in Futures(o'.desks[j]);
    }
  }

  lemma SubmissionKeepsAccounts(g: Guards, o: Office, id: NodeId, request: Request)
    requires Accounted(o) && EventOk(g, o, Submitted(id, request))
    ensures Accounted(Happens(g, o, Submitted(id, request)))
  {
    hide Tidy, Futures;
    var o' := Happens(g, o, Submitted(id, request));
    SubmitAddsOne(o.desks[id], request);
    forall f | f in o'.issued ensures exists id :: id in o'.desks && f in Futures(o'.desks[id]) {
      if f == request.future {
        assert f in Futures(o'.desks[id]);
      } else {
        var j :| j in o.desks && f in Futures(o.desks[j]);
        assert j in o'.desks && f in Futures(o'.desks[j]);
      }
    }
  }

  lemma {:induction false} FuturesConserved(g: Guards, ids: set<NodeId>, offices: seq<Office>, events: seq<Event>,
                                            i: nat)
    requires Days(g, ids, offices, events) && i < |offices|
    ensures Accounted(offices[i])
  {
    hide Days, Happens;
    DaysBegin(g, ids, offices, events);
    if i > 0 {
      FuturesConserved(g, ids, offices, events, i - 1);
      DayAt(g, ids, offices, events, i - 1);
      hide Accounted, EventOk;
      match events[i - 1]
      case Protocol(a) => ProtocolKeepsAccounts(g, offices[i - 1], a);
      case Submitted(id, request) => SubmissionKeepsAccounts(g, offices[i - 1], id, request);
    }
  }

  /** An answer, once given, is never given again or changed. */
  lemma {:induction false} AnsweredOnce(g: Guards, ids: set<NodeId>, offices: seq<Office>, events: seq<Event>, i: nat,
                                        j: nat, id: NodeId, f: Future)
    requires Days(g, ids, offices, events) && i <= j < |offices|
    requires id in offices[i].desks && f in offices[i].desks[id].answers
    ensures id in offices[j].desks && f in offices[j].desks[id].answers
    ensures offices[j].desks[id].answers[f] == offices[i].desks[id].answers[f]
  {
    hide Days, Accounted, Happens;
    if i < j {
      AnsweredOnce(g, ids, offices, events, i, j - 1, id, f);
      DayAt(g, ids, offices, events, j - 1);
      FuturesConserved(g, ids, offices, events, j - 1);
      AnswerStays(g, offices[j - 1], events[j - 1], id, f);
    }
  }

  lemma AnswerStays(g: Guards, o: Office, e: Event, id: NodeId, f: Future)
    requires Accounted(o) && EventOk(g, o, e) && id in o.desks && f in o.desks[id].answers
    ensures var o' := Happens(g, o, e);
            id in o'.desks && f in o'.desks[id].answers && o'.desks[id].answers[f] == o.desks[id].answers[f]
  {
    hide Next, DeskAct, Futures, ActDefined, Tidy;
    match e
    case Protocol(a) =>
      if Actor(a) == id {
        DeskActPreserves(o.cluster.nodes[id], o.desks[id], Ids(o.cluster), a);
      }
    case Submitted(_, _) =>
  }

  // What "persisted" means

  /** The leader of the origin's term has the command at the origin's index. */
  predicate OriginOk(h: History, o: Origin) {
    && o.term in h.elections && h.elections[o.term].leader == o.node
    && o.index < |h.elections[o.term].log| && h.elections[o.term].log[o.index] == LogItem(o.command, o.term)
  }

  predicate WaitingOk(origins: map<Future, Origin>, id: NodeId, d: Desk) {
    forall k | k in d.waiting ::
      d.waiting[k] in origins && origins[d.waiting[k]].node == id && origins[d.waiting[k]].index == k
  }

  ghost predicate Traced(o: Office) {
    && Core(o.cluster) && Accounted(o)
    && (forall f | f in o.origins :: f in o.issued && OriginOk(o.cluster.hist, o.origins[f]))
    && (forall id | id in o.desks :: WaitingOk(o.origins, id, o.desks[id]) && Queued(o.desks[id]) !! o.origins.Keys)
  }

  lemma OriginOkGrows(h: History, h': History, o: Origin)
    requires Grows(h, h') && OriginOk(h, o)
    ensures OriginOk(h', o)
  {
    assert ElectionGrows(h.elections[o.term], h'.elections[o.term]);
  }

  /** Each queued future gets an origin, and no other origin changes. */
  lemma {:induction false} NewOriginsOf(origins: map<Future, Origin>, queue: seq<Request>, id: NodeId, term: Term,
                                        length: nat)
    requires forall i, j | 0 <= i < j < |queue| :: queue[i].future != queue[j].future
    requires forall k | 0 <= k < |queue| :: queue[k].future !in origins
    ensures var origins' := NewOrigins(origins, queue, id, term, length);
            && origins'.Keys == origins.Keys + (set k | 0 <= k < |queue| :: queue[k].future)
            && (forall f | f in origins :: origins'[f] == origins[f])
            && (forall k | 0 <= k < |queue| ::
                  queue[k].future in origins'
                  && origins'[queue[k].future] == Origin(id, term, length + k, queue[k].command))
    decreases |queue|
  {
    if queue != [] {
      var f, rest := queue[0].future, queue[1..];
      var next := origins[f := Origin(id, term, length, queue[0].command)];
      NewOriginsOf(next, rest, id, term, length + 1);
      assert forall k | 1 <= k < |queue| :: queue[k] == rest[k - 1];
      assert (set k | 0 <= k < |queue| :: queue[k].future) == {f} + (set k | 0 <= k < |rest| :: rest[k].future);
    }
  }

  lemma {:induction false} AcceptTraced(origins: map<Future, Origin>, id: NodeId, d: Desk, length: nat)
    requires WaitingOk(origins, id, d)
    requires forall k | 0 <= k < |d.incoming| ::
      d.incoming[k].future in origins && origins[d.incoming[k].future].node == id
      && origins[d.incoming[k].future].index == length + k
    ensures WaitingOk(origins, id, Accept(d, length))
    decreases |d.incoming|
  {
    if d.incoming != [] {
      var rest := AcceptHead(d, length);
      assert forall k | 0 <= k < |rest.incoming| :: rest.incoming[k] == d.incoming[k + 1];
      AcceptTraced(origins, id, rest, length + 1);
    }
  }

  lemma {:induction false} PersistTraced(origins: map<Future, Origin>, id: NodeId, d: Desk, lo: nat, hi: nat)
    requires WaitingOk(origins, id, d)
    ensures WaitingOk(origins, id, Persist(d, lo, hi))
    decreases hi - lo
  {
    if lo < hi {
      if lo + 1 in d.waiting {
        PersistTraced(origins, id,
          d.(waiting := d.waiting - {lo + 1}, answers := d.answers[d.waiting[lo + 1] := Persisted]), lo + 1, hi);
      } else {
        PersistTraced(origins, id, d, lo + 1, hi);
      }
    }
  }

  lemma {:induction false} RedirectTraced(d: Desk, leader: NodeId)
    ensures Redirect(d, leader).waiting == d.waiting
    ensures forall f | f in Redirect(d, leader).answers ::
      Redirect(d, leader).answers[f] == Redirected(leader)
      || (f in d.answers && Redirect(d, leader).answers[f] == d.answers[f])
    decreases |d.incoming|
  {
    if d.incoming != [] {
      var f := d.incoming[0].future;
      RedirectTraced(d.(incoming := d.incoming[1..], answers := d.answers[f := Redirected(leader)]), leader);
    }
  }

  /** An action other than appending leaves each desk with known origins. */
  lemma OtherActTraced(origins: map<Future, Origin>, id: NodeId, s: NodeState, d: Desk, ids: set<NodeId>, a: Action)
    requires ActDefined(s, ids, a) && !a.Append? && WaitingOk(origins, id, d) && Queued(d) !! origins.Keys
    ensures WaitingOk(origins, id, DeskAct(s, d, ids, a)) && Queued(DeskAct(s, d, ids, a)) !! origins.Keys
  {
    hide HighestHeld;
    match a
    case Deliver(p) =>
      if p.body.AppendReq? {
        RedirectTraced(d, p.body.appendReq.leaderId);
        RedirectPreserves(d, p.body.appendReq.leaderId);
      }
    case Commit(_) =>
      PersistTraced(origins, id, d, s.commit, CommitIfPossible(s, |ids|).commit);
      PersistPreserves(d, s.commit, CommitIfPossible(s, |ids|).commit);
    case _ =>
  }

  lemma OthersTraced(o: Office, id: NodeId, origins': map<Future, Origin>)
    requires Accounted(o) && id in o.desks
    requires forall j | j in o.desks :: WaitingOk(o.origins, j, o.desks[j]) && Queued(o.desks[j]) !! o.origins.Keys
    requires origins'.Keys == o.origins.Keys + Queued(o.desks[id])
    requires forall f | f in o.origins :: origins'[f] == o.origins[f]
    ensures forall j | j in o.desks && j != id ::
      WaitingOk(origins', j, o.desks[j]) && Queued(o.desks[j]) !! origins'.Keys
  {
    forall j | j in o.desks && j != id
      ensures WaitingOk(origins', j, o.desks[j]) && Queued(o.desks[j]) !! origins'.Keys {
      assert Futures(o.desks[j]) !! Futures(o.desks[id]);
      assert Queued(o.desks[j]) <= Futures(o.desks[j]) && Queued(o.desks[id]) <= Futures(o.desks[id]);
    }
  }

  /** The leader's new entries are the origins of the queue. */
  lemma AppendedOrigins(o: Office, id: NodeId)
    requires Traced(o) && id in o.desks && o.cluster.nodes[id].role.Leader?
    ensures var s, d := o.cluster.nodes[id], o.desks[id];
            var h' := DoAppend(o.cluster, id, Commands(d.incoming)).hist;
            forall k | 0 <= k < |d.incoming| :: OriginOk(h', Origin(id, s.term, |s.log| + k, d.incoming[k].command))
  {
    hide Core, HistOk, NodeOk, Tidy, Futures;
    CoreNode(o.cluster, id);
    LeaderKeys(o.cluster.hist, Ids(o.cluster), id, o.cluster.nodes[id]);
  }

  lemma QueueIsNew(o: Office, id: NodeId)
    requires Traced(o) && id in o.desks
    ensures var d := o.desks[id];
            && (forall i, j | 0 <= i < j < |d.incoming| :: d.incoming[i].future != d.incoming[j].future)
            && (forall k | 0 <= k < |d.incoming| :: d.incoming[k].future !in o.origins)
            && WaitingOk(o.origins, id, d)
  {
    var d := o.desks[id];
    hide Core;
    assert forall k | 0 <= k < |d.incoming| :: d.incoming[k].future in Queued(d);
  }

  /** What appending does to the origins. */
  lemma OriginsAfterAppend(o: Office, id: NodeId)
    requires Traced(o) && id in o.desks && id in o.cluster.nodes && o.cluster.nodes[id].role.Leader?
    ensures var s, d := o.cluster.nodes[id], o.desks[id];
            var origins' := NewOrigins(o.origins, d.incoming, id, s.term, |s.log|);
            var h' := DoAppend(o.cluster, id, Commands(d.incoming)).hist;
            && origins'.Keys == o.origins.Keys + Queued(d)
            && (forall f | f in o.origins :: origins'[f] == o.origins[f])
            && (forall f | f in Queued(d) :: OriginOk(h', origins'[f]))
            && WaitingOk(origins', id, Accept(d, |s.log|))
  {
    hide Traced, DoAppend, OriginOk, Accept;
    var s, d := o.cluster.nodes[id], o.desks[id];
    QueueIsNew(o, id);
    AppendedOrigins(o, id);
    NewOriginsOf(o.origins, d.incoming, id, s.term, |s.log|);
    AcceptTraced(NewOrigins(o.origins, d.incoming, id, s.term, |s.log|), id, d, |s.log|);
  }

  lemma AppendKeepsTraced(g: Guards, o: Office, a: Action)
    requires Traced(o) && EventOk(g, o, Protocol(a)) && g.oneVote && a.Append?
    ensures Traced(Happens(g, o, Protocol(a)))
  {
    hide Core, CoreKept, Accounted, DoAppend, LogsNonempty, OriginOk, WaitingOk, Accept, NewOrigins, Queued;
    var o' := Happens(g, o, Protocol(a));
    var s, d := o.cluster.nodes[a.id], o.desks[a.id];
    StepKeepsCore(o.cluster, a);
    KeptGrows(o.cluster, o'.cluster);
    ProtocolKeepsAccounts(g, o, a);
    OriginsAfterAppend(o, a.id);
    OthersTraced(o, a.id, o'.origins);
    QueuedIssued(o, a.id);
    AcceptPreserves(d, |s.log|);
    EmptyQueue(Accept(d, |s.log|));
    forall f | f in o.origins ensures OriginOk(o'.cluster.hist, o'.origins[f]) {
      OriginOkGrows(o.cluster.hist, o'.cluster.hist, o.origins[f]);
    }
  }

  lemma EmptyQueue(d: Desk)
    requires d.incoming == []
    ensures Queued(d) == {}
  {
  }

  lemma QueuedIssued(o: Office, id: NodeId)
    requires Accounted(o) && id in o.desks
    ensures Queued(o.desks[id]) <= o.issued && Tidy(o.desks[id])
  {
    assert Futures(o.desks[id]) <= o.issued;
  }

  lemma KeptGrows(c: State, c': State)
    requires CoreKept(c, c')
    ensures Core(c') && Grows(c.hist, c'.hist)
  {
  }

  lemma OtherKeepsTraced(g: Guards, o: Office, a: Action)
    requires Traced(o) && EventOk(g, o, Protocol(a)) && g.oneVote && !a.Append?
    ensures Traced(Happens(g, o, Protocol(a)))
  {
    hide Core, CoreKept, Accounted, DeskAct, LogsNonempty, OriginOk, WaitingOk, Queued, ActDefined, Next;
    var o' := Happens(g, o, Protocol(a));
    var id := Actor(a);
    StepKeepsCore(o.cluster, a);
    KeptGrows(o.cluster, o'.cluster);
    ProtocolKeepsAccounts(g, o, a);
    OtherActTraced(o.origins, id, o.cluster.nodes[id], o.desks[id], Ids(o.cluster), a);
    forall f | f in o'.origins ensures f in o'.issued && OriginOk(o'.cluster.hist, o'.origins[f]) {
      OriginOkGrows(o.cluster.hist, o'.cluster.hist, o.origins[f]);
    }
  }

  lemma SubmittedQueue(d: Desk, request: Request)
    ensures Queued(Submit(d, request)) == Queued(d) + {request.future}
  {
    var d' := Submit(d, request);
    assert forall k | 0 <= k < |d.incoming| :: d'.incoming[k] == d.incoming[k];
    assert d'.incoming[|d.incoming|] == request;
  }

  lemma SubmissionKeepsTraced(g: Guards, o: Office, id: NodeId, request: Request)
    requires Traced(o) && EventOk(g, o, Submitted(id, request))
    ensures Traced(Happens(g, o, Submitted(id, request)))
  {
    hide Core, Accounted, Queued, OriginOk;
    SubmissionKeepsAccounts(g, o, id, request);
    SubmittedQueue(o.desks[id], request);
  }

  lemma {:induction false} DaysTraced(g: Guards, ids: set<NodeId>, offices: seq<Office>, events: seq<Event>, i: nat)
    requires Days(g, ids, offices, events) && g.oneVote && i < |offices|
    ensures Traced(offices[i])
  {
    hide Days, Traced, Core, Happens, InitOffice;
    DaysBegin(g, ids, offices, events);
    if i == 0 {
      InitCore(ids);
      InitTraced(ids);
    } else {
      DaysTraced(g, ids, offices, events, i - 1);
      DayAt(g, ids, offices, events, i - 1);
      match events[i - 1]
      case Protocol(a) =>
        if a.Append? {
          AppendKeepsTraced(g, offices[i - 1], a);
        } else {
          OtherKeepsTraced(g, offices[i - 1], a);
        }
      case Submitted(id, request) => SubmissionKeepsTraced(g, offices[i - 1], id, request);
    }
  }

  lemma InitTraced(ids: set<NodeId>)
    requires Core(Init(ids))
    ensures Traced(InitOffice(ids))
  {
  }

  /** Only the promises waiting between the old and the new commit index are answered. */
  lemma {:induction false} PersistAnswers(d: Desk, lo: nat, hi: nat, f: Future)
    requires f in Persist(d, lo, hi).answers && f !in d.answers
    ensures exists k | k in d.waiting :: d.waiting[k] == f && lo < k <= hi
    decreases hi - lo
  {
    if lo < hi {
      if lo + 1 in d.waiting {
        if d.waiting[lo + 1] != f {
          var next := d.(waiting := d.waiting - {lo + 1}, answers := d.answers[d.waiting[lo + 1] := Persisted]);
          PersistAnswers(next, lo + 1, hi, f);
          var k :| k in next.waiting && next.waiting[k] == f && lo + 1 < k <= hi;
          assert k in d.waiting && d.waiting[k] == f;
        }
      } else {
        PersistAnswers(d, lo + 1, hi, f);
      }
    }
  }

  /** A promise is answered "persisted" only by the commit rule, and the index it was waiting for
      is committed then. Its own command is at that index exactly when the entry there is of the
      term in which the command was appended, which the node can see before it answers; so it
      is while the node still leads that term. */
  lemma PersistedIsOwnCommand(g: Guards, ids: set<NodeId>, offices: seq<Office>, events: seq<Event>, i: nat,
                              id: NodeId, f: Future)
    requires Days(g, ids, offices, events) && g.oneVote && i < |events|
    requires id in offices[i].desks && f !in offices[i].desks[id].answers
    requires id in offices[i + 1].desks && f in offices[i + 1].desks[id].answers
    requires offices[i + 1].desks[id].answers[f] == Persisted
    ensures id in offices[i + 1].cluster.nodes && f in offices[i].origins
    ensures var s, o := offices[i + 1].cluster.nodes[id], offices[i].origins[f];
            && o.node == id && 0 < o.index <= s.commit && o.index < |s.log|
            && (s.log[o.index].leaderTerm == o.term <==> s.log[o.index] == LogItem(o.command, o.term))
            && (o.term == s.term ==> s.log[o.index].leaderTerm == o.term)
  {
    DaysTraced(g, ids, offices, events, i);
    DaysTraced(g, ids, offices, events, i + 1);
    PersistedStep(g, offices[i], events[i], id, f);
  }

  lemma PersistedStep(g: Guards, o: Office, e: Event, id: NodeId, f: Future)
    requires Traced(o) && EventOk(g, o, e) && id in o.desks && f !in o.desks[id].answers
    requires var o' := Happens(g, o, e); f in o'.desks[id].answers && o'.desks[id].answers[f] == Persisted
    ensures f in o.origins && id in Happens(g, o, e).cluster.nodes
    ensures var s, origin := Happens(g, o, e).cluster.nodes[id], o.origins[f];
            && origin.node == id && 0 < origin.index <= s.commit && origin.index < |s.log|
            && (s.log[origin.index].leaderTerm == origin.term <==>
                  s.log[origin.index] == LogItem(origin.command, origin.term))
            && (origin.term == s.term ==> s.log[origin.index].leaderTerm == origin.term)
  {
    hide Core, Accounted, HighestHeld, LogsNonempty, HistOk, NodeOk;
    var s, d := o.cluster.nodes[id], o.desks[id];
    OnlyCommitPersists(g, o, e, id, f);
    var s' := CommitIfPossible(s, |Ids(o.cluster)|);
    PersistAnswers(d, s.commit, s'.commit, f);
    var k :| k in d.waiting && d.waiting[k] == f && s.commit < k <= s'.commit;
    assert WaitingOk(o.origins, id, d);
    CoreNode(o.cluster, id);
    LeaderKeys(o.cluster.hist, Ids(o.cluster), id, s);
    EntryOfTerm(o.cluster.hist, Ids(o.cluster), id, s, o.origins[f]);
  }

  /** An entry of the origin's term at the origin's index is the origin's command. */
  lemma EntryOfTerm(h: History, ids: set<NodeId>, id: NodeId, s: NodeState, o: Origin)
    requires NodeOk(h, ids, id, s) && OriginOk(h, o) && 0 < o.index < |s.log|
    ensures s.log[o.index].leaderTerm == o.term <==> s.log[o.index] == LogItem(o.command, o.term)
  {
    if s.log[o.index].leaderTerm == o.term {
      assert EntryOk(h, s.log, o.index);
      assert s.log[o.index] == s.log[..o.index + 1][o.index];
    }
  }

  lemma OnlyCommitPersists(g: Guards, o: Office, e: Event, id: NodeId, f: Future)
    requires EventOk(g, o, e) && id in o.desks && f !in o.desks[id].answers
    requires var o' := Happens(g, o, e); f in o'.desks[id].answers && o'.desks[id].answers[f] == Persisted
    ensures e == Protocol(Commit(id))
  {
    hide HighestHeld, LogsNonempty, HandleAppendReq, Next;
    match e
    case Submitted(_, _) =>
    case Protocol(a) =>
      if Actor(a) == id {
        var d := o.desks[id];
        match a
        case Deliver(p) =>
          if p.body.AppendReq? {
            RedirectTraced(d, p.body.appendReq.leaderId);
          }
        case Append(_, _) => AcceptPreserves(d, |o.cluster.nodes[id].log|);
        case _ =>
      }
  }
}
