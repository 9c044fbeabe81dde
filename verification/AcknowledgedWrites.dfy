/** An acknowledged write is never lost: once a client has been told "persisted" with its own entry
    in place, every node that commits that far has the entry, and every replica that far reads
    the written value until the key is written again. */
module AcknowledgedWrites {
  import opened Messages
  import opened Storage
  import opened Replay
  import opened Clients
  import opened Cluster
  import opened ClientFutures
  import opened Safety
  import opened KeyValueStore

  // The clusters of the days with clients form a run

  /** How many of the first `n` events are actions of the cluster. */
  function ActionsIn(events: seq<Event>, n: nat): nat
    requires n <= |events|
  {
    if n == 0 then 0 else ActionsIn(events, n - 1) + if events[n - 1].Protocol? then 1 else 0
  }

  /** `t` visits the clusters of the first `n` days, in order. */
  predicate Follows(t: Trace, offices: seq<Office>, events: seq<Event>, n: nat) {
    && n <= |events| && n < |offices|
    && forall i | 0 <= i <= n ::
      ActionsIn(events, i) < |t.states| && t.states[ActionsIn(events, i)] == offices[i].cluster
  }

  lemma {:induction false} DaysAreRun(g: Guards, ids: set<NodeId>, offices: seq<Office>, events: seq<Event>, n: nat)
      returns (t: Trace)
    requires Days(g, ids, offices, events) && n < |offices|
    ensures Run(g, t) && t.ids == ids && Follows(t, offices, events, n)
    ensures |t.states| == ActionsIn(events, n) + 1
  {
    hide Days, Run, EventOk, Happens, Follows, ActionsIn;
    DaysBegin(g, ids, offices, events);
    if n == 0 {
      t := Trace(ids, [Init(ids)], []);
      FirstDay(g, ids, offices, events);
    } else {
      DayAt(g, ids, offices, events, n - 1);
      var before := DaysAreRun(g, ids, offices, events, n - 1);
      match events[n - 1]
      case Submitted(_, _) =>
        t := before;
        QuietDay(g, before, offices, events, n);
      case Protocol(_) => t := OneMoreDay(g, before, offices, events, n);
    }
  }

  lemma FirstDay(g: Guards, ids: set<NodeId>, offices: seq<Office>, events: seq<Event>)
    requires offices != [] && offices[0] == InitOffice(ids)
    ensures Run(g, Trace(ids, [Init(ids)], [])) && Follows(Trace(ids, [Init(ids)], []), offices, events, 0)
    ensures ActionsIn(events, 0) == 0
  {
  }

  /** A submission leaves the cluster as it is. */
  lemma QuietDay(g: Guards, t: Trace, offices: seq<Office>, events: seq<Event>, n: nat)
    requires 0 < n <= |events| && n < |offices| && Follows(t, offices, events, n - 1)
    requires events[n - 1].Submitted? && EventOk(g, offices[n - 1], events[n - 1])
    requires offices[n] == Happens(g, offices[n - 1], events[n - 1])
    ensures Follows(t, offices, events, n) && ActionsIn(events, n) == ActionsIn(events, n - 1)
  {
    hide EventOk;
  }

  lemma OneMoreDay(g: Guards, t: Trace, offices: seq<Office>, events: seq<Event>, n: nat) returns (t': Trace)
    requires Run(g, t) && 0 < n <= |events| && n < |offices| && Follows(t, offices, events, n - 1)
    requires |t.states| == ActionsIn(events, n - 1) + 1 && events[n - 1].Protocol?
    requires EventOk(g, offices[n - 1], events[n - 1])
    requires offices[n] == Happens(g, offices[n - 1], events[n - 1])
    ensures Run(g, t') && t'.ids == t.ids && Follows(t', offices, events, n)
    ensures |t'.states| == ActionsIn(events, n) + 1
  {
    RunBegins(g, t);
    assert t.states[|t.actions|] == offices[n - 1].cluster;
    hide Run, Next, Obeys, Enabled, Follows;
    t' := RunOneMore(g, t, events[n - 1].action);
    VisitsOneMore(t, t', offices, events, n);
  }

  lemma RunOneMore(g: Guards, t: Trace, a: Action) returns (t': Trace)
    requires Run(g, t)
    requires var c := t.states[|t.actions|]; Enabled(c, a) && Obeys(g, c, a)
    ensures Run(g, t') && t'.ids == t.ids && t'.states == t.states + [Next(t.states[|t.actions|], a)]
  {
    hide Enabled, Obeys, Next;
    t' := Trace(t.ids, t.states + [Next(t.states[|t.actions|], a)], t.actions + [a]);
    forall i | 0 <= i < |t'.actions| ensures StepOk(g, t'.states[i], t'.actions[i], t'.states[i + 1]) {
      if i < |t.actions| {
        assert StepOk(g, t.states[i], t.actions[i], t.states[i + 1]);
      }
    }
  }

  lemma {:induction false} FewerActions(events: seq<Event>, i: nat, n: nat)
    requires i <= n <= |events|
    ensures ActionsIn(events, i) <= ActionsIn(events, n)
  {
    if i < n {
      FewerActions(events, i, n - 1);
    }
  }

  lemma VisitsOneMore(t: Trace, t': Trace, offices: seq<Office>, events: seq<Event>, n: nat)
    requires 0 < n <= |events| && n < |offices| && Follows(t, offices, events, n - 1)
    requires |t.states| == ActionsIn(events, n - 1) + 1 && events[n - 1].Protocol?
    requires t'.states == t.states + [offices[n].cluster]
    ensures Follows(t', offices, events, n) && |t'.states| == ActionsIn(events, n) + 1
  {
    forall i | 0 <= i <= n
      ensures ActionsIn(events, i) < |t'.states| && t'.states[ActionsIn(events, i)] == offices[i].cluster
    {
      if i < n {
        FewerActions(events, i, n - 1);
      }
    }
  }

  // What was committed once

  ghost predicate HasCommitted(c: State, id: NodeId, k: nat, item: LogItem) {
    id in c.nodes && k <= c.nodes[id].commit && k < |c.nodes[id].log| && c.nodes[id].log[k] == item
  }

  /** An entry one node has committed at one time is what every node has at that index whenever
      it has committed that far. */
  lemma CommittedEverywhere(g: Guards, t: Trace, u: nat, v: nat, a: NodeId, b: NodeId, k: nat, item: LogItem)
    requires Run(g, t) && Sound(g) && u < |t.states| && v < |t.states|
    requires HasCommitted(t.states[u], a, k, item) && b in t.states[v].nodes && k <= t.states[v].nodes[b].commit
    ensures HasCommitted(t.states[v], b, k, item)
  {
    hide Run;
    if u <= v {
      StateMachineSafety(g, t, u, v, a, b, k);
    } else {
      StateMachineSafety(g, t, v, u, b, a, k);
    }
    var l, l' := t.states[u].nodes[a].log, t.states[v].nodes[b].log;
    assert l[..k + 1][k] == l[k] && l'[..k + 1][k] == l'[k];
  }

  // Acknowledged writes

  /** At this event node `id` answers `f` as persisted, and the entry at the index `f` waited for
      is of the term in which its command was appended. */
  ghost predicate Acknowledges(offices: seq<Office>, i: nat, id: NodeId, f: Future) {
    && i + 1 < |offices|
    && id in offices[i].desks && f !in offices[i].desks[id].answers
    && id in offices[i + 1].desks && f in offices[i + 1].desks[id].answers
    && offices[i + 1].desks[id].answers[f] == Persisted
    && id in offices[i + 1].cluster.nodes && f in offices[i].origins
    && var s, o := offices[i + 1].cluster.nodes[id], offices[i].origins[f];
    o.index < |s.log| && s.log[o.index].leaderTerm == o.term
  }

  lemma AcknowledgedIsCommitted(g: Guards, ids: set<NodeId>, offices: seq<Office>, events: seq<Event>, i: nat,
                                id: NodeId, f: Future)
    requires Days(g, ids, offices, events) && g.oneVote && i < |events| && Acknowledges(offices, i, id, f)
    ensures var o := offices[i].origins[f];
            HasCommitted(offices[i + 1].cluster, id, o.index, LogItem(o.command, o.term))
  {
    PersistedIsOwnCommand(g, ids, offices, events, i, id, f);
  }

  /** Every node that has committed as far, at any moment before or after, has the command. */
  lemma AcknowledgedWriteStays(g: Guards, ids: set<NodeId>, offices: seq<Office>, events: seq<Event>, i: nat,
                               id: NodeId, f: Future, j: nat, b: NodeId)
    requires Days(g, ids, offices, events) && Sound(g) && i < |events| && Acknowledges(offices, i, id, f)
    requires j < |offices| && b in offices[j].cluster.nodes
    requires offices[i].origins[f].index <= offices[j].cluster.nodes[b].commit
    ensures var o := offices[i].origins[f];
            HasCommitted(offices[j].cluster, b, o.index, LogItem(o.command, o.term))
  {
    AcknowledgedIsCommitted(g, ids, offices, events, i, id, f);
    var t := DaysAreRun(g, ids, offices, events, |events|);
    hide Days, Run, HasCommitted;
    var o := offices[i].origins[f];
    var u, v := ActionsIn(events, i + 1), ActionsIn(events, j);
    CommittedEverywhere(g, t, u, v, id, b, o.index, LogItem(o.command, o.term));
  }

  /** No command at `lo+1..hi` writes `key`. */
  predicate NotRewritten(log: Log, key: Key, lo: nat, hi: nat)
    requires hi < |log|
  {
    forall k | lo < k <= hi :: Parse(log[k].command).key != key
  }

  /** Every replica that has applied as many commands as the acknowledged one reads its value, as
      long as no later command it applied writes the key again. */
  lemma AcknowledgedWriteIsRead(g: Guards, ids: set<NodeId>, offices: seq<Office>, events: seq<Event>, i: nat,
                                id: NodeId, f: Future, t: Trace, b: NodeId, times: seq<nat>, now: nat,
                                key: Key, value: Value)
    requires Days(g, ids, offices, events) && Sound(g) && i < |events| && Acknowledges(offices, i, id, f)
    requires offices[i].origins[f].command == Join(key, value)
    requires NoSpace(key) && NoSpace(value) && (key == "" ==> value == "")
    requires Run(g, t) && Follows(t, offices, events, |events|)
    requires b in t.ids && now < |t.states| && InOrder(times) && forall k | 0 <= k < |times| :: times[k] <= now
    ensures CallsDefined(t, b, times) && b in t.states[now].nodes
    ensures var r, log, k := AfterCalls(t, b, times), t.states[now].nodes[b].log, offices[i].origins[f].index;
            k <= r.lastPersisted < |log| && NotRewritten(log, key, k, r.lastPersisted)
            ==> key in r.store && r.store[key] == value
  {
    AcknowledgedIsCommitted(g, ids, offices, events, i, id, f);
    assert t.states[ActionsIn(events, i + 1)] == offices[i + 1].cluster;
    hide Days, Run, InOrder, Actualize, Parse;
    StoreIsReplay(g, t, b, times, now);
    var r, log, o := AfterCalls(t, b, times), t.states[now].nodes[b].log, offices[i].origins[f];
    if o.index <= r.lastPersisted && NotRewritten(log, key, o.index, r.lastPersisted) {
      CommittedEverywhere(g, t, ActionsIn(events, i + 1), now, id, b, o.index, LogItem(o.command, o.term));
      WriteIsReadBack(key, value);
      OwnIndexPositive(g, ids, offices, events, i, id, f);
      assert LastWrite(Writes(log), r.lastPersisted, key, o.index);
      LastWriteIsRead(Writes(log), r.lastPersisted, key, o.index);
    }
  }

  lemma OwnIndexPositive(g: Guards, ids: set<NodeId>, offices: seq<Office>, events: seq<Event>, i: nat,
                         id: NodeId, f: Future)
    requires Days(g, ids, offices, events) && g.oneVote && i < |events| && Acknowledges(offices, i, id, f)
    ensures offices[i].origins[f].index > 0
  {
    PersistedIsOwnCommand(g, ids, offices, events, i, id, f);
  }

  /** Once a replica's node has committed as far as the acknowledged write and no later command it has
      committed writes the key, the replica reads the value after enough calls, wherever it was before:
      each call covers a hundred million commands. */
  lemma AcknowledgedWriteCanBeRead(g: Guards, ids: set<NodeId>, offices: seq<Office>, events: seq<Event>, i: nat,
                                   id: NodeId, f: Future, t: Trace, b: NodeId, times: seq<nat>, now: nat, n: nat,
                                   key: Key, value: Value)
    requires Days(g, ids, offices, events) && Sound(g) && i < |events| && Acknowledges(offices, i, id, f)
    requires offices[i].origins[f].command == Join(key, value)
    requires NoSpace(key) && NoSpace(value) && (key == "" ==> value == "")
    requires Run(g, t) && Follows(t, offices, events, |events|)
    requires b in t.ids && now < |t.states| && InOrder(times) && forall k | 0 <= k < |times| :: times[k] <= now
    requires b in t.states[now].nodes && CallsDefined(t, b, times)
    requires var s, k := t.states[now].nodes[b], offices[i].origins[f].index;
             && k <= s.commit < |s.log| && NotRewritten(s.log, key, k, s.commit)
             && s.commit <= AfterCalls(t, b, times).lastPersisted + n * 100_000_000
    ensures CallsDefined(t, b, AndAgain(times, now, n))
    ensures ReadFrom(AfterCalls(t, b, AndAgain(times, now, n)), key) == value
  {
    hide Days, Run, InOrder, Actualize, AfterCalls, Acknowledges, Parse;
    CallsReach(g, t, b, times, now, n);
    AgainInOrder(times, now, n);
    AcknowledgedWriteIsRead(g, ids, offices, events, i, id, f, t, b, AndAgain(times, now, n), now, key, value);
  }
}
