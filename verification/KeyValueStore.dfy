/** The replicated key-value store: each node's map is a replay of its committed log
    (hw2/src/worker/worker.cpp). */
module KeyValueStore {
  import opened Options
  import opened Messages
  import opened Storage
  import opened Replay
  import opened Clients
  import opened Cluster
  import opened RaftNode
  import opened Safety

  /** How many commands one call asks for. */
  const BATCH: nat := 1_000_000_00

  datatype Replica = Replica(lastPersisted: nat, store: map<Key, Value>)

  const FRESH := Replica(0, map[])

  /** ActualizeState against a node with this log and commit index. */
  function Actualize(r: Replica, log: Log, commit: nat): Replica
    requires commit < |log|
  {
    var last := Max(r.lastPersisted, Min(r.lastPersisted + BATCH, commit));
    if last == r.lastPersisted then r else Replica(last, ReplayFrom(r.store, Writes(log), r.lastPersisted, last))
  }

  /** The reply to a write: it is persisted, or another node may lead. */
  datatype WriteResponse = ValuePersisted | MasterId(leader: NodeId)

  class KeyValueStoreImpl {
    var lastPersistedId: nat
    const storage: Store
    const node: Node

    ghost predicate Valid()
      reads this, node
    {
      node.Valid() && node.commitIndex < |node.log|
    }

    ghost function State(): Replica
      reads this, storage
    {
      Replica(lastPersistedId, storage.values)
    }

    constructor (node: Node)
      requires node.Valid() && node.commitIndex < |node.log|
      ensures Valid() && State() == FRESH && this.node == node && fresh(storage)
    {
      lastPersistedId := 0;
      storage := new Store();
      this.node := node;
    }

    /** The loop of ActualizeState: each command is applied once and counted. */
    method Apply(commands: seq<Command>, ghost log: Log)
      requires commands != [] ==> lastPersistedId + |commands| < |log|
      requires forall i | 0 <= i < |commands| :: commands[i] == log[lastPersistedId + 1 + i].command
      modifies `lastPersistedId, storage
      ensures lastPersistedId == old(lastPersistedId) + |commands|
      ensures commands == [] ==> storage.values == old(storage.values)
      ensures commands != [] ==>
        storage.values == ReplayFrom(old(storage.values), Writes(log), old(lastPersistedId), lastPersistedId)
    {
      hide Parse;
      ghost var first, was := lastPersistedId, storage.values;
      for i := 0 to |commands|
        invariant lastPersistedId == first + i
        invariant commands == [] ==> storage.values == was
        invariant commands != [] ==> storage.values == ReplayFrom(was, Writes(log), first, first + i)
      {
        lastPersistedId := lastPersistedId + 1;
        var a := Parse(commands[i]);
        storage.Set(a.key, a.value);
      }
    }

    /** What the node has committed beyond what was applied, at most `count` commands. */
    method Fetch(count: nat) returns (commands: seq<Command>)
      requires Valid()
      ensures lastPersistedId + |commands| == Max(lastPersistedId, Min(lastPersistedId + count, node.commitIndex))
      ensures commands != [] ==> lastPersistedId + |commands| < |node.log|
      ensures forall i | 0 <= i < |commands| ::
        lastPersistedId + 1 + i < |node.log| && commands[i] == node.log[lastPersistedId + 1 + i].command
    {
      hide CommandsBetween;
      commands := node.PersistentCommands(lastPersistedId + 1, count);
    }

    /** The replica comes as far as the node has committed, or a hundred million commands further. */
    method ActualizeState()
      requires Valid()
      modifies this, storage
      ensures State() == Actualize(old(State()), node.log, node.commitIndex)
      ensures lastPersistedId == if node.commitIndex <= old(lastPersistedId) then old(lastPersistedId)
                                 else Min(node.commitIndex, old(lastPersistedId) + 100_000_000)
    {
      var commands := Fetch(BATCH);
      hide ReplayFrom, Max, Min;
      Apply(commands, node.log);
    }

    /** Write brings the map up to date and hands the command to the node; the promise the
        source waits for is `future`. */
    method Write(key: Key, value: Value, future: Future)
      requires Valid()
      modifies this, storage, node`incomingCommands
      ensures Valid() && State() == Actualize(old(State()), node.log, node.commitIndex)
      ensures node.State() == old(node.State())
      ensures node.Clerk() == Submit(old(node.Clerk()), Request(Join(key, value), future))
    {
      ActualizeState();
      node.AddCommand(Join(key, value), future);
    }

    /** What Write tells the client once the promise has been answered; until then it waits. */
    method WriteReply(future: Future) returns (reply: Option<WriteResponse>)
      ensures reply.None? <==> future !in node.answers
      ensures reply == Some(ValuePersisted) <==> future in node.answers && node.answers[future] == Persisted
      ensures forall leader :: reply == Some(MasterId(leader)) <==>
        future in node.answers && node.answers[future] == Redirected(leader)
    {
      reply := None;
      if future in node.answers {
        match node.answers[future]
        case Persisted => reply := Some(ValuePersisted);
        case Redirected(leader) => reply := Some(MasterId(leader));
      }
    }

    method Read(key: Key) returns (value: Value)
      requires Valid()
      modifies this, storage
      ensures State() == Actualize(old(State()), node.log, node.commitIndex)
      ensures value == if key in State().store then State().store[key] else ""
      ensures old(lastPersistedId) <= node.commitIndex <= old(lastPersistedId) + 100_000_000 ==>
        lastPersistedId == node.commitIndex
    {
      ActualizeState();
      value := storage.Get(key).GetOr("");
    }
  }

  // Replicas of a cluster

  /** The replica of node `id` after calls of ActualizeState at these moments of the run. */
  function AfterCalls(t: Trace, id: NodeId, times: seq<nat>): Replica
    requires CallsDefined(t, id, times)
  {
    if times == [] then FRESH
    else
      var k := |times| - 1;
      var s := t.states[times[k]].nodes[id];
      Actualize(AfterCalls(t, id, times[..k]), s.log, s.commit)
  }

  predicate CallsDefined(t: Trace, id: NodeId, times: seq<nat>) {
    forall k | 0 <= k < |times| ::
      times[k] < |t.states| && id in t.states[times[k]].nodes
      && t.states[times[k]].nodes[id].commit < |t.states[times[k]].nodes[id].log|
  }

  ghost predicate InOrder(times: seq<nat>) {
    forall i, j | 0 <= i < j < |times| :: times[i] <= times[j]
  }

  lemma ActualizeIsReplay(r: Replica, log: Log, commit: nat)
    requires r.lastPersisted <= commit < |log| && r.store == Replayed(Writes(log), r.lastPersisted)
    ensures var r' := Actualize(r, log, commit);
            r.lastPersisted <= r'.lastPersisted <= commit && r'.store == Replayed(Writes(log), r'.lastPersisted)
  {
    hide Parse;
    ReplayInSteps(map[], Writes(log), 0, r.lastPersisted, Actualize(r, log, commit).lastPersisted);
  }

  ghost predicate Sound(g: Guards) { g.oneVote && g.freshReply && g.commits == RECENT }

  /** Under the guards no call finds a commit index outside the log. */
  lemma CallsAreDefined(g: Guards, t: Trace, id: NodeId, times: seq<nat>)
    requires Run(g, t) && Sound(g) && id in t.ids && forall k | 0 <= k < |times| :: times[k] < |t.states|
    ensures CallsDefined(t, id, times)
  {
    hide Run;
    forall k | 0 <= k < |times|
      ensures id in t.states[times[k]].nodes
      ensures t.states[times[k]].nodes[id].commit < |t.states[times[k]].nodes[id].log|
    {
      CommitNeverGoesBack(g, t, times[k], times[k], id);
      CommittedEntriesStay(g, t, times[k], times[k], id);
    }
  }

  lemma CallDefined(t: Trace, id: NodeId, times: seq<nat>, k: nat)
    requires CallsDefined(t, id, times) && k < |times|
    ensures times[k] < |t.states| && id in t.states[times[k]].nodes && CallsDefined(t, id, times[..k])
    ensures t.states[times[k]].nodes[id].commit < |t.states[times[k]].nodes[id].log|
  {
  }

  lemma PrefixInOrder(times: seq<nat>, k: nat)
    requires InOrder(times) && k < |times|
    ensures InOrder(times[..k]) && forall i | 0 <= i < k :: times[..k][i] <= times[k]
  {
  }

  /** The replica holds the replay of its node's log up to `last_persisted_id_`, now and at
      any later moment, and never runs ahead of the commit index. */
  lemma {:induction false} StoreIsReplay(g: Guards, t: Trace, id: NodeId, times: seq<nat>, now: nat)
    requires Run(g, t) && Sound(g) && id in t.ids && now < |t.states|
    requires InOrder(times) && forall k | 0 <= k < |times| :: times[k] <= now
    ensures CallsDefined(t, id, times) && id in t.states[now].nodes
    ensures var r, s := AfterCalls(t, id, times), t.states[now].nodes[id];
            r.lastPersisted <= s.commit < |s.log| && r.store == Replayed(Writes(s.log), r.lastPersisted)
    decreases |times|
  {
    hide Run, InOrder, Actualize;
    CallsAreDefined(g, t, id, times);
    hide CallsDefined;
    CommitNeverGoesBack(g, t, now, now, id);
    CommittedEntriesStay(g, t, now, now, id);
    if times != [] {
      hide ReplayFrom, Parse;
      var k := |times| - 1;
      var before := times[k];
      PrefixInOrder(times, k);
      CallDefined(t, id, times, k);
      StoreIsReplay(g, t, id, times[..k], before);
      var s, s' := t.states[before].nodes[id], t.states[now].nodes[id];
      ActualizeIsReplay(AfterCalls(t, id, times[..k]), s.log, s.commit);
      var r := AfterCalls(t, id, times);
      CommitNeverGoesBack(g, t, before, now, id);
      StateMachineSafety(g, t, before, now, id, id, r.lastPersisted);
      WritesSamePrefix(s.log, s'.log, r.lastPersisted + 1);
      ReplaySamePrefix(map[], Writes(s.log), Writes(s'.log), 0, r.lastPersisted);
    }
  }

  /** `rb` is `ra` after the commands of `log` that `ra` lacks. */
  predicate Continued(ra: Replica, rb: Replica, log: Log) {
    && rb.lastPersisted < |log|
    && rb.store == ReplayFrom(ra.store, Writes(log), ra.lastPersisted, rb.lastPersisted)
    && (ra.lastPersisted == rb.lastPersisted ==> ra.store == rb.store)
  }

  lemma OneAhead(ra: Replica, rb: Replica, la: Log, lb: Log)
    requires ra.lastPersisted < |la| && ra.lastPersisted <= rb.lastPersisted < |lb|
    requires ra.store == Replayed(Writes(la), ra.lastPersisted)
    requires rb.store == Replayed(Writes(lb), rb.lastPersisted)
    requires la[..ra.lastPersisted + 1] == lb[..ra.lastPersisted + 1]
    ensures Continued(ra, rb, lb)
  {
    hide ReplayFrom, Parse;
    WritesSamePrefix(la, lb, ra.lastPersisted + 1);
    ReplaySamePrefix(map[], Writes(la), Writes(lb), 0, ra.lastPersisted);
    ReplayInSteps(map[], Writes(lb), 0, ra.lastPersisted, rb.lastPersisted);
  }

  /** Under the guards two logs agree on what both nodes know to be committed. */
  lemma LogsAgree(g: Guards, t: Trace, i: nat, a: NodeId, b: NodeId, k: nat)
    requires Run(g, t) && Sound(g) && i < |t.states| && a in t.states[i].nodes && b in t.states[i].nodes
    requires k <= t.states[i].nodes[a].commit && k <= t.states[i].nodes[b].commit
    ensures var la, lb := t.states[i].nodes[a].log, t.states[i].nodes[b].log;
            k < |la| && k < |lb| && la[..k + 1] == lb[..k + 1]
  {
    StateMachineSafety(g, t, i, i, a, b, k);
  }

  /** Two replicas, wherever and whenever they were brought up to date: the one that is
      behind becomes the other by replaying the commands it lacks, and two that are equally
      far hold the same map. */
  lemma ReplicasAgree(g: Guards, t: Trace, a: NodeId, timesA: seq<nat>, b: NodeId, timesB: seq<nat>, now: nat)
    requires Run(g, t) && Sound(g) && a in t.ids && b in t.ids && now < |t.states|
    requires InOrder(timesA) && forall k | 0 <= k < |timesA| :: timesA[k] <= now
    requires InOrder(timesB) && forall k | 0 <= k < |timesB| :: timesB[k] <= now
    ensures CallsDefined(t, a, timesA) && CallsDefined(t, b, timesB) && b in t.states[now].nodes
    ensures AfterCalls(t, a, timesA).lastPersisted <= AfterCalls(t, b, timesB).lastPersisted ==>
      Continued(AfterCalls(t, a, timesA), AfterCalls(t, b, timesB), t.states[now].nodes[b].log)
  {
    StoreIsReplay(g, t, a, timesA, now);
    StoreIsReplay(g, t, b, timesB, now);
    hide Run, Sound, InOrder, AfterCalls, CallsDefined, Replayed, Continued;
    var ra, rb := AfterCalls(t, a, timesA), AfterCalls(t, b, timesB);
    var la, lb := t.states[now].nodes[a].log, t.states[now].nodes[b].log;
    if ra.lastPersisted <= rb.lastPersisted {
      LogsAgree(g, t, now, a, b, ra.lastPersisted);
      OneAhead(ra, rb, la, lb);
    }
  }

  // How far a replica comes

  /** `Actualize` reaches the commit index if it is at most a hundred million commands ahead, and
      otherwise comes exactly so much further. */
  lemma ActualizeAdvances(r: Replica, log: Log, commit: nat)
    requires r.lastPersisted <= commit < |log|
    ensures Actualize(r, log, commit).lastPersisted == Min(commit, r.lastPersisted + 100_000_000)
  {
  }

  /** The moments of some calls, and then of `n` more at the moment `now`. */
  function AndAgain(times: seq<nat>, now: nat, n: nat): seq<nat> {
    if n == 0 then times else AndAgain(times, now, n - 1) + [now]
  }

  lemma {:induction false} AgainInOrder(times: seq<nat>, now: nat, n: nat)
    requires InOrder(times) && forall k | 0 <= k < |times| :: times[k] <= now
    ensures var more := AndAgain(times, now, n); InOrder(more) && forall k | 0 <= k < |more| :: more[k] <= now
  {
    if n > 0 {
      AgainInOrder(times, now, n - 1);
    }
  }

  /** Each further call at one moment brings the replica a hundred million commands further, until it
      has all its node has committed. */
  lemma {:induction false} CallsReach(g: Guards, t: Trace, id: NodeId, times: seq<nat>, now: nat, n: nat)
    requires Run(g, t) && Sound(g) && id in t.ids && now < |t.states|
    requires InOrder(times) && forall k | 0 <= k < |times| :: times[k] <= now
    ensures CallsDefined(t, id, times) && CallsDefined(t, id, AndAgain(times, now, n)) && id in t.states[now].nodes
    ensures AfterCalls(t, id, AndAgain(times, now, n)).lastPersisted
         == Min(t.states[now].nodes[id].commit, AfterCalls(t, id, times).lastPersisted + n * 100_000_000)
  {
    hide Run, InOrder, Actualize, AfterCalls;
    StoreIsReplay(g, t, id, times, now);
    if n > 0 {
      CallsReach(g, t, id, times, now, n - 1);
      AgainInOrder(times, now, n - 1);
      AgainInOrder(times, now, n);
      StoreIsReplay(g, t, id, AndAgain(times, now, n - 1), now);
      StoreIsReplay(g, t, id, AndAgain(times, now, n), now);
      OneMoreCall(t, id, AndAgain(times, now, n - 1), now);
      var s := t.states[now].nodes[id];
      ActualizeAdvances(AfterCalls(t, id, AndAgain(times, now, n - 1)), s.log, s.commit);
    }
  }

  lemma OneMoreCall(t: Trace, id: NodeId, times: seq<nat>, now: nat)
    requires CallsDefined(t, id, times + [now])
    ensures CallsDefined(t, id, times) && now < |t.states| && id in t.states[now].nodes
    ensures var s := t.states[now].nodes[id];
            && s.commit < |s.log|
            && AfterCalls(t, id, times + [now]) == Actualize(AfterCalls(t, id, times), s.log, s.commit)
  {
    var more := times + [now];
    assert more[|times|] == now && more[..|times|] == times;
    assert forall k | 0 <= k < |times| :: more[k] == times[k];
  }

  /** What `Read` returns for a key. */
  function ReadFrom(r: Replica, key: Key): Value {
    if key in r.store then r.store[key] else ""
  }

  /** After enough calls at a moment, whatever came before, a key reads as the value of the last command
      that its node has committed for it, and as the empty string if there is none. */
  lemma ReadIsLastCommitted(g: Guards, t: Trace, id: NodeId, times: seq<nat>, now: nat, n: nat, key: Key)
    requires Run(g, t) && Sound(g) && id in t.ids && now < |t.states|
    requires InOrder(times) && forall k | 0 <= k < |times| :: times[k] <= now
    requires id in t.states[now].nodes && CallsDefined(t, id, times)
    requires t.states[now].nodes[id].commit <= AfterCalls(t, id, times).lastPersisted + n * 100_000_000
    ensures CallsDefined(t, id, AndAgain(times, now, n))
    ensures var s, v := t.states[now].nodes[id], ReadFrom(AfterCalls(t, id, AndAgain(times, now, n)), key);
            && s.commit < |s.log|
            && (forall i: nat | LastWrite(Writes(s.log), s.commit, key, i) :: v == Parse(s.log[i].command).value)
            && ((forall i: nat | 1 <= i <= s.commit :: Parse(s.log[i].command).key != key) ==> v == "")
  {
    hide Run, InOrder, Actualize, AfterCalls, CallsDefined;
    CallsReach(g, t, id, times, now, n);
    AgainInOrder(times, now, n);
    StoreIsReplay(g, t, id, AndAgain(times, now, n), now);
    var s := t.states[now].nodes[id];
    ReplayIsLastWrite(s.log, s.commit, key);
  }

  lemma ReplayIsLastWrite(log: Log, n: nat, key: Key)
    requires n < |log|
    ensures var m := Replayed(Writes(log), n);
            && (forall i: nat | LastWrite(Writes(log), n, key, i) :: key in m && m[key] == Parse(log[i].command).value)
            && ((forall i: nat | 1 <= i <= n :: Parse(log[i].command).key != key) ==> key !in m)
  {
    hide Parse;
    forall i: nat | LastWrite(Writes(log), n, key, i)
      ensures key in Replayed(Writes(log), n) && Replayed(Writes(log), n)[key] == Parse(log[i].command).value
    {
      LastWriteIsRead(Writes(log), n, key, i);
    }
    if key in Replayed(Writes(log), n) {
      var i := PresentWasWritten(Writes(log), n, key);
      assert Writes(log)[i].key == key;
    }
  }
}
