/** The leader of hw1 (integral::Leader) as it works on its fields (hw1/src/leader/leader.h and leader.cpp). Each
    method is one stretch of the loop in RunOverWorkers; sockets are its parameters. */
module SchedulerLeader {
  import opened Options
  import opened Integral
  import opened Scheduler
  import opened AssignmentLaws
  import opened SchedulerInvariant
  import opened RoundStep
  import opened SchedulerRuns

  /** What poll and recv report for one worker's socket. */
  datatype Incoming = Quiet | Broken | Reply(value: real, ref: TaskRef)

  function AskActs(tasks: seq<Bounds>): seq<Act> {
    seq(|tasks|, i requires 0 <= i < |tasks| => Ask(tasks[i]))
  }

  function JoinActs(found: seq<WorkerId>): seq<Act> {
    seq(|found|, i requires 0 <= i < |found| => Join(found[i]))
  }

  /** What one look at a worker's socket amounts to. */
  function PollActs(wid: WorkerId, hangup: bool, incoming: Incoming, sends: bool, sent: bool): seq<Act> {
    (if hangup then [Lose(wid)] else [])
    + (match incoming
       case Quiet => []
       case Broken => [Lose(wid)]
       case Reply(value, ref) => [Result(wid, ref, value)])
    + (if sends then [if sent then Dispatch(wid) else Lose(wid)] else [])
  }

  predicate Within(sorted: seq<WorkerId>, w: WorkerId, p: nat) {
    && p <= |sorted|
    && (forall i | 0 <= i < p :: sorted[i] < w)
    && forall i | p <= i < |sorted| :: w < sorted[i]
  }

  lemma InsertAscending(sorted: seq<WorkerId>, w: WorkerId, p: nat)
    requires Ascending(sorted) && Within(sorted, w, p)
    ensures Ascending(sorted[..p] + [w] + sorted[p..])
  {
    var r := sorted[..p] + [w] + sorted[p..];
    assert forall i | 0 <= i < |r| :: r[i] == if i < p then sorted[i] else if i == p then w else sorted[i - 1];
  }

  /** What std::sort followed by std::unique leaves. */
  method SortedUnique(ids: seq<WorkerId>) returns (r: seq<WorkerId>)
    ensures Ascending(r) && forall w :: w in r <==> w in ids
  {
    r := [];
    for k := 0 to |ids|
      invariant Ascending(r) && forall w :: w in r <==> w in ids[..k]
    {
      assert ids[..k + 1] == ids[..k] + [ids[k]];
      if ids[k] !in r {
        var p := 0;
        while p < |r| && r[p] < ids[k]
          invariant p <= |r| && forall i | 0 <= i < p :: r[i] < ids[k]
        {
          p := p + 1;
        }
        assert forall i | p <= i < |r| :: r[i] in r && r[p] <= r[i];
        InsertAscending(r, ids[k], p);
        assert r == r[..p] + r[p..];
        r := r[..p] + [ids[k]] + r[p..];
      }
    }
    assert ids[..|ids|] == ids;
  }

  lemma OneMoreWithout(lists: map<WorkerId, seq<TaskRef>>, ws: seq<WorkerId>, k: nat)
    requires k < |ws|
    ensures Without(lists, ws[..k + 1]) == Without(lists, ws[..k]) - {ws[k]}
  {
    assert ws[..k + 1] == ws[..k] + [ws[k]];
  }

  // The set of loads

  ghost predicate Weighs(workers: set<(nat, WorkerId)>, lists: map<WorkerId, seq<TaskRef>>) {
    forall p: (nat, WorkerId) :: p in workers <==> p.1 in lists && p.0 == |lists[p.1]|
  }

  predicate IsBegin(workers: set<(nat, WorkerId)>, p: (nat, WorkerId)) {
    p in workers && forall q: (nat, WorkerId) | q in workers :: p.0 < q.0 || (p.0 == q.0 && p.1 <= q.1)
  }

  lemma BeginIsLeast(workers: set<(nat, WorkerId)>, lists: map<WorkerId, seq<TaskRef>>)
    requires Weighs(workers, lists) && lists.Keys != {}
    ensures exists p :: IsBegin(workers, p)
    ensures forall p | IsBegin(workers, p) :: p.1 in lists && p.1 == Least(lists) && p.0 == |lists[p.1]|
    ensures forall v: WorkerId | v in lists ::
      |lists[Least(lists)]| < |lists[v]| || (|lists[Least(lists)]| == |lists[v]| && Least(lists) <= v)
  {
    var least := Least(lists);
    assert IsBegin(workers, (|lists[least]|, least));
    forall p | IsBegin(workers, p) ensures p.1 == least {
      assert forall v | v in lists :: (|lists[v]|, v) in workers;
      assert IsLeast(lists, p.1);
    }
  }

  lemma WeighsAfter(workers: set<(nat, WorkerId)>, lists: map<WorkerId, seq<TaskRef>>, w: WorkerId, ref: TaskRef)
    requires Weighs(workers, lists) && w in lists
    ensures Weighs(workers - {(|lists[w]|, w)} + {(|lists[w]| + 1, w)}, AssignTo(lists, w, ref))
  {
  }

  lemma RescheduledRest(s: Sched, ws: seq<WorkerId>)
    requires IsRemoval(s, ws) && Defined(s, Round(ws))
    ensures forall w, ref | w in s.lists && ref in s.lists[w] :: ref.query < |s.queries|
    ensures Reschedule(s, ws).toDelete == {} && Reschedule(s, ws).asked == s.asked
    ensures Reschedule(s, ws).delivered == s.delivered - (set w | w in ws)
  {
  }

  class IntegralLeader {
    var queries: seq<Query>
    var knownWorkers: map<WorkerId, seq<TaskRef>>
    var widToDelete: seq<WorkerId>
    var newTasks: seq<Bounds>

    ghost var asked: seq<Bounds>
    ghost var delivered: map<WorkerId, set<TaskRef>>
    ghost var history: seq<Act>
    ghost var states: seq<Sched>

    ghost function View(): Sched
      reads this
    {
      Sched(queries, knownWorkers, (set w | w in widToDelete), asked, delivered)
    }

    /** The fields are where a run of the scheduler has come to. */
    ghost predicate Valid()
      reads this
    {
      Run(states, history) && states[|history|] == View()
    }

    constructor ()
      ensures Valid() && history == [] && newTasks == []
    {
      queries, knownWorkers, widToDelete, newTasks := [], map[], [], [];
      asked, delivered, history, states := [], map[], [], [IDLE];
    }

    /** Bookkeeping: the fields have taken the step `a`. */
    ghost method Took(a: Act)
      requires Run(states, history) && Enabled(states[|history|], a) && Defined(states[|history|], a)
      requires View() == Step(states[|history|], a)
      modifies `states, `history
      ensures Valid() && history == old(history) + [a]
    {
      RunExtends(states, history, a);
      states := states + [View()];
      history := history + [a];
    }

    /** The query is queued, and the caller gets 0 at once: the result is only ever logged. */
    method GetResult(a: real, b: real) returns (r: real)
      requires Valid()
      modifies `newTasks
      ensures Valid() && newTasks == old(newTasks) + [Bounds(a, b)] && r == 0.0
    {
      newTasks := newTasks + [Bounds(a, b)];
      r := 0.0;
    }

    static method CutInSlices(q: Bounds) returns (info: Query)
      ensures info == NewQuery(q)
      ensures TenSlices(info, q)
    {
      hide TenSlices;
      var slices := SLICES;
      info := Query(0.0, [], {}, {});
      for i := 0 to slices
        invariant info.result == 0.0 && info.inProgress == {} && info.toDo == UpTo(i)
        invariant info.allTasks == Slices(q)[..i]
      {
        var a, b := q.a, q.b;
        var task := Bounds(a + (b - a) / slices as real * i as real, a + (b - a) / slices as real * (i + 1) as real);
        assert task == Slice(q, i) && Slices(q)[..i + 1] == Slices(q)[..i] + [Slice(q, i)];
        info := info.(allTasks := info.allTasks + [task], toDo := info.toDo + {i});
      }
      assert info.allTasks == Slices(q);
      hide Slice, Slices;
      TenToDo(q);
    }

    /** Ten tasks to do, none in progress, that lie end to end from one bound to the other. */
    static predicate TenSlices(info: Query, q: Bounds) {
      && |info.allTasks| == 10 && info.toDo == {0, 1, 2, 3, 4, 5, 6, 7, 8, 9}
      && info.inProgress == {} && info.result == 0.0
      && info.allTasks[0].a == q.a && info.allTasks[9].b == q.b
      && forall i | 0 <= i < 9 :: info.allTasks[i].b == info.allTasks[i + 1].a
    }

    static lemma TenToDo(q: Bounds)
      ensures TenSlices(NewQuery(q), q)
    {
      assert forall i: nat :: i in UpTo(SLICES) <==> i in {0, 1, 2, 3, 4, 5, 6, 7, 8, 9};
      assert NewQuery(q).allTasks[9] == Slice(q, 9);
    }

    method TakeQueries()
      requires Valid()
      modifies this
      ensures Valid() && newTasks == []
      ensures history == old(history) + AskActs(old(newTasks))
      ensures |queries| == |old(queries)| + |old(newTasks)| && old(queries) <= queries
      ensures forall k | |old(queries)| <= k < |queries| :: queries[k] == NewQuery(old(newTasks)[k - |old(queries)|])
      ensures knownWorkers == old(knownWorkers) && widToDelete == old(widToDelete)
    {
      hide Inv, Run, NewQuery, Defined, Reschedule, Send, Receive, AddWorker;
      var taken := newTasks;
      newTasks := [];
      ghost var was := queries;
      for k := 0 to |taken|
        invariant Valid() && newTasks == []
        invariant history == old(history) + AskActs(taken[..k])
        invariant |queries| == |was| + k && was <= queries
        invariant forall j | |was| <= j < |queries| :: queries[j] == NewQuery(taken[j - |was|])
        invariant knownWorkers == old(knownWorkers) && widToDelete == old(widToDelete)
      {
        var info := CutInSlices(taken[k]);
        RunExtends(states, history, Ask(taken[k]));
        queries := queries + [info];
        asked := asked + [taken[k]];
        Took(Ask(taken[k]));
        assert AskActs(taken[..k + 1]) == AskActs(taken[..k]) + [Ask(taken[k])];
      }
      assert taken[..|taken|] == taken;
    }

    method AddOneWorker(w: WorkerId)
      requires Valid()
      modifies this
      ensures Valid() && newTasks == old(newTasks) && history == old(history) + [Join(w)]
      ensures knownWorkers == if w in old(knownWorkers) then old(knownWorkers) else old(knownWorkers)[w := []]
      ensures queries == old(queries) && widToDelete == old(widToDelete)
    {
      hide Inv, Run, Defined, Reschedule, Send, Receive, AddQuery;
      RunExtends(states, history, Join(w));
      if w !in knownWorkers {
        knownWorkers := knownWorkers[w := []];
        delivered := delivered[w := {}];
      }
      Took(Join(w));
    }

    /** A worker that is known only has its heartbeat noted. */
    method AddWorkers(found: seq<WorkerId>)
      requires Valid()
      modifies this
      ensures Valid() && newTasks == old(newTasks)
      ensures history == old(history) + JoinActs(found)
      ensures knownWorkers.Keys == old(knownWorkers).Keys + (set w | w in found)
      ensures forall w | w in knownWorkers ::
        knownWorkers[w] == if w in old(knownWorkers) then old(knownWorkers)[w] else []
      ensures queries == old(queries) && widToDelete == old(widToDelete)
    {
      hide Inv, Run, Defined, Reschedule, Send, Receive, AddQuery;
      for k := 0 to |found|
        invariant Valid() && newTasks == old(newTasks)
        invariant history == old(history) + JoinActs(found[..k])
        invariant knownWorkers.Keys == old(knownWorkers).Keys + (set w | w in found[..k])
        invariant forall w | w in knownWorkers ::
          knownWorkers[w] == if w in old(knownWorkers) then old(knownWorkers)[w] else []
        invariant queries == old(queries) && widToDelete == old(widToDelete)
      {
        AddOneWorker(found[k]);
        assert JoinActs(found[..k + 1]) == JoinActs(found[..k]) + [Join(found[k])];
      }
      assert found[..|found|] == found;
    }

    method WorkersToRemove() returns (ws: seq<WorkerId>)
      ensures IsRemoval(View(), ws)
    {
      ws := [];
      for k := 0 to |widToDelete|
        invariant forall w :: w in ws <==> w in widToDelete[..k] && w in knownWorkers
      {
        if widToDelete[k] in knownWorkers {
          ws := ws + [widToDelete[k]];
        }
        assert widToDelete[..k + 1] == widToDelete[..k] + [widToDelete[k]];
      }
      assert widToDelete[..|widToDelete|] == widToDelete;
      ws := SortedUnique(ws);
    }

    method RemoveWorkers(ws: seq<WorkerId>) returns (orphans: seq<TaskRef>)
      requires Ascending(ws) && forall w | w in ws :: w in knownWorkers
      modifies `knownWorkers
      ensures knownWorkers == Without(old(knownWorkers), ws)
      ensures orphans == Orphans(old(knownWorkers), ws)
    {
      orphans := [];
      ghost var was := knownWorkers;
      for k := 0 to |ws|
        invariant knownWorkers == Without(was, ws[..k])
        invariant orphans == Orphans(was, ws[..k])
      {
        assert ws[..k + 1][..k] == ws[..k];
        assert ws[k] in ws && ws[k] !in ws[..k];
        OneMoreWithout(was, ws, k);
        orphans := orphans + knownWorkers[ws[k]];
        knownWorkers := knownWorkers - {ws[k]};
      }
      assert ws[..|ws|] == ws;
    }

    method PutBackIfAlone(tasks: seq<TaskRef>)
      requires forall ref | ref in tasks :: ref.query < |queries|
      modifies `queries
      ensures queries == if knownWorkers.Keys == {} then PutBack(old(queries), tasks) else old(queries)
    {
      for k := 0 to |tasks|
        invariant queries == if knownWorkers.Keys == {} then PutBack(old(queries), tasks[..k]) else old(queries)
      {
        assert tasks[..k + 1][..k] == tasks[..k];
        assert tasks[k] in tasks;
        if knownWorkers.Keys == {} {
          var ref := tasks[k];
          var q := queries[ref.query];
          queries := queries[ref.query := q.(inProgress := q.inProgress - {ref.task}, toDo := q.toDo + {ref.task})];
        }
      }
      assert tasks[..|tasks|] == tasks;
    }

    /** A std::set is walked in ascending order. */
    static method AppendWaiting(tasks: seq<TaskRef>, id: nat, query: Query) returns (r: seq<TaskRef>)
      ensures r == tasks + Waiting(id, query.toDo, |query.allTasks|)
    {
      r := tasks;
      for i := 0 to |query.allTasks|
        invariant r == tasks + Waiting(id, query.toDo, i)
      {
        if i in query.toDo {
          r := r + [TaskRef(id, i)];
        }
      }
    }

    method CollectWaiting(tasks: seq<TaskRef>) returns (r: seq<TaskRef>)
      modifies `queries
      ensures queries == SwapAll(old(queries))
      ensures r == tasks + AllWaiting(old(queries), |old(queries)|)
    {
      r := tasks;
      ghost var was := queries;
      for k := 0 to |queries|
        invariant |queries| == |was|
        invariant forall j | 0 <= j < |was| :: queries[j] == if j < k then Swap(was[j]) else was[j]
        invariant r == tasks + AllWaiting(was, k)
      {
        var query := queries[k];
        if query.toDo != {} {
          r := AppendWaiting(r, k, query);
          queries := queries[k := query.(toDo := query.inProgress, inProgress := query.toDo)];
        } else {
          NothingWaits(k, |query.allTasks|);
        }
        assert r == tasks + AllWaiting(was, k) + Waiting(k, query.toDo, |query.allTasks|);
      }
      assert queries == SwapAll(was);
    }

    static lemma {:induction false} NothingWaits(q: nat, n: nat)
      ensures Waiting(q, {}, n) == []
    {
      if n > 0 {
        NothingWaits(q, n - 1);
      }
    }

    method Loads() returns (workers: set<(nat, WorkerId)>)
      ensures Weighs(workers, knownWorkers)
    {
      workers := set w | w in knownWorkers :: (|knownWorkers[w]|, w);
    }

    /** The first pair of the set. */
    static method Begin(workers: set<(nat, WorkerId)>, ghost lists: map<WorkerId, seq<TaskRef>>)
        returns (sz: nat, wid: WorkerId)
      requires Weighs(workers, lists) && lists.Keys != {}
      ensures wid in lists && wid == Least(lists) && sz == |lists[wid]|
    {
      BeginIsLeast(workers, lists);
      var it: (nat, WorkerId) :| IsBegin(workers, it);
      sz, wid := it.0, it.1;
    }

    method ShareOut(tasks: seq<TaskRef>)
      requires knownWorkers.Keys != {}
      modifies `knownWorkers
      ensures knownWorkers == AssignAll(old(knownWorkers), tasks)
    {
      hide Weighs, IsBegin, IsLeast;
      ghost var was := knownWorkers;
      var workers := Loads();
      for k := 0 to |tasks|
        invariant knownWorkers == AssignAll(was, tasks[..k]) && Weighs(workers, knownWorkers)
      {
        assert tasks[..k + 1][..k] == tasks[..k];
        var sz, wid := Begin(workers, knownWorkers);
        WeighsAfter(workers, knownWorkers, wid, tasks[k]);
        workers := workers - {(sz, wid)};
        sz := sz + 1;
        knownWorkers := knownWorkers[wid := knownWorkers[wid] + [tasks[k]]];
        workers := workers + {(sz, wid)};
      }
      assert tasks[..|tasks|] == tasks;
    }

    /** Removal of the workers that were lost and reassignment of their tasks. */
    method MoveTasks(ws: seq<WorkerId>, ghost s: Sched)
      requires s.queries == queries && s.lists == knownWorkers
      requires IsRemoval(s, ws) && Defined(s, Round(ws))
      modifies `queries, `knownWorkers
      ensures queries == Reschedule(s, ws).queries && knownWorkers == Reschedule(s, ws).lists
    {
      OrphansKnown(knownWorkers, ws);
      hide Orphans, PutBack, AssignAll, AllWaiting, SwapAll, Ascending;
      var tasks := RemoveWorkers(ws);
      PutBackIfAlone(tasks);
      if knownWorkers.Keys != {} {
        tasks := CollectWaiting(tasks);
        ShareOut(tasks);
      }
    }

    /** The task is in some worker's list, or to do if no worker is known. */
    static ghost predicate Placed(s: Sched, ref: TaskRef) {
      if s.lists.Keys != {} then exists w | w in s.lists :: ref in s.lists[w]
      else ref.query < |s.queries| && ref.task in s.queries[ref.query].toDo
    }

    static lemma TasksStay(s: Sched, ws: seq<WorkerId>)
      requires Inv(s) && IsRemoval(s, ws) && Defined(s, Round(ws))
      ensures var s' := Reschedule(s, ws);
              && s'.lists.Keys == s.lists.Keys - s.toDelete
              && (forall w | w in s'.lists :: w in s.lists && s.lists[w] <= s'.lists[w])
              && (forall w, ref | w in s.lists && ref in s.lists[w] :: Placed(s', ref))
              && (forall k, i | 0 <= k < |s.queries| && i in s.queries[k].toDo :: Placed(s', TaskRef(k, i)))
    {
      RoundKeepsOthers(s, ws);
      hide Reschedule;
      forall w, ref | w in s.lists && ref in s.lists[w] ensures Placed(Reschedule(s, ws), ref) {
        assert Holds(s.lists, ref) && InProgress(s, ref);
        RoundKeepsTasks(s, ws, ref);
      }
      forall k, i | 0 <= k < |s.queries| && i in s.queries[k].toDo ensures Placed(Reschedule(s, ws), TaskRef(k, i)) {
        RoundKeepsTasks(s, ws, TaskRef(k, i));
      }
    }

    /** One round of removal and reassignment, lines 153 to 215: lost workers go, and every task they had
        or that waited goes to a worker, or waits if none is left. */
    method Reassign() returns (ghost removed: seq<WorkerId>)
      requires Valid()
      modifies this
      ensures Valid() && newTasks == old(newTasks) && widToDelete == []
      ensures history == old(history) + [Round(removed)]
      ensures knownWorkers.Keys == old(knownWorkers).Keys - (set w | w in old(widToDelete))
      ensures forall w | w in knownWorkers :: w in old(knownWorkers) && old(knownWorkers)[w] <= knownWorkers[w]
      ensures forall w, ref | w in old(knownWorkers) && ref in old(knownWorkers)[w] :: Placed(View(), ref)
      ensures forall k, i | 0 <= k < |old(queries)| && i in old(queries)[k].toDo :: Placed(View(), TaskRef(k, i))
    {
      hide Run, Inv, IsRemoval, Orphans, PutBack, AssignAll, AllWaiting, SwapAll, Ascending, Defined, Reschedule;
      hide Placed;
      ghost var s := View();
      var ws := WorkersToRemove();
      removed := ws;
      RunExtends(states, history, Round(ws));
      RescheduledRest(s, ws);
      TasksStay(s, ws);
      widToDelete := [];
      delivered := delivered - (set w | w in ws);
      MoveTasks(ws, s);
      assert View() == Reschedule(s, ws);
      Took(Round(ws));
    }

    method CloseConnection(wid: WorkerId)
      requires Valid()
      modifies this
      ensures Valid() && newTasks == old(newTasks) && knownWorkers == old(knownWorkers) && queries == old(queries)
      ensures delivered == old(delivered) && history == old(history) + [Lose(wid)]
      ensures widToDelete == old(widToDelete) + [wid]
    {
      RunExtends(states, history, Lose(wid));
      widToDelete := widToDelete + [wid];
      Took(Lose(wid));
    }

    /** A result for a task in progress is added and the front of the list erased. */
    method AddResult(wid: WorkerId, value: real, ref: TaskRef, ghost s: Sched) returns (solved: bool)
      requires s.queries == queries && s.lists == knownWorkers
      requires ref.query < |s.queries| && wid in s.lists
      requires ref.task in s.queries[ref.query].inProgress ==> s.lists[wid] != []
      modifies `queries, `knownWorkers
      ensures queries == Receive(s, wid, ref, value).queries && knownWorkers == Receive(s, wid, ref, value).lists
      ensures solved <==> ref.task in s.queries[ref.query].inProgress
                          && queries[ref.query].inProgress == {} && queries[ref.query].toDo == {}
    {
      solved := false;
      var q := queries[ref.query];
      if ref.task in q.inProgress {
        knownWorkers := knownWorkers[wid := knownWorkers[wid][1..]];
        q := q.(result := q.result + value);
        q := q.(inProgress := q.inProgress - {ref.task});
        queries := queries[ref.query := q];
        solved := q.inProgress == {} && q.toDo == {};
      }
    }

    /** From `s` to `s'` a result is added to its query and its task erased from its sender's list, if the
        task is in progress; otherwise nothing changes. */
    static predicate TakesIn(s: Sched, s': Sched, wid: WorkerId, ref: TaskRef, value: real) {
      && wid in s.lists && wid in s'.lists && ref.query < |s.queries| == |s'.queries|
      && (forall k | 0 <= k < |s.queries| && k != ref.query :: s'.queries[k] == s.queries[k])
      && var q, q' := s.queries[ref.query], s'.queries[ref.query];
      if ref.task in q.inProgress then
        && s.lists[wid] == [ref] + s'.lists[wid]
        && q' == q.(inProgress := q.inProgress - {ref.task}, result := q.result + value)
      else
        s'.lists == s.lists && q' == q
    }

    /** A query is reported solved only when its result is the exact integral over the bounds it
        was asked for. */
    method HandleResult(wid: WorkerId, value: real, ref: TaskRef) returns (solved: bool)
      requires Valid() && Enabled(View(), Result(wid, ref, value))
      modifies this
      ensures Valid() && newTasks == old(newTasks) && history == old(history) + [Result(wid, ref, value)]
      ensures knownWorkers.Keys == old(knownWorkers).Keys && widToDelete == old(widToDelete)
      ensures forall w | w in knownWorkers && w != wid :: knownWorkers[w] == old(knownWorkers)[w]
      ensures TakesIn(old(View()), View(), wid, ref, value)
      ensures solved <==> ref.query < |old(queries)| && ref.task in old(queries)[ref.query].inProgress
                          && queries[ref.query].inProgress == {} && queries[ref.query].toDo == {}
      ensures solved ==> ref.query < |Asks(history)| && ref.query < |queries|
      ensures solved ==> Asks(history)[ref.query].a < Asks(history)[ref.query].b
      ensures solved ==>
        queries[ref.query].result == Exact(2.0, 5.0, Asks(history)[ref.query].a, Asks(history)[ref.query].b)
    {
      hide Run, Inv, IsReply, Asks, Exact, Open, TakesIn, Receive;
      ghost var s := View();
      RunExtends(states, history, Result(wid, ref, value));
      ResultIsTaken(s, wid, ref, value);
      solved := AddResult(wid, value, ref, s);
      Took(Result(wid, ref, value));
      TakesAlike(s, s, Receive(s, wid, ref, value), View(), wid, ref, value);
      if solved {
        SolvedIsExact(states, history, ref.query);
      }
    }

    static lemma ResultIsTaken(s: Sched, wid: WorkerId, ref: TaskRef, value: real)
      requires Inv(s) && Enabled(s, Result(wid, ref, value)) && Defined(s, Result(wid, ref, value))
      ensures var s' := Receive(s, wid, ref, value);
              && TakesIn(s, s', wid, ref, value) && s' == s.(queries := s'.queries, lists := s'.lists)
              && s'.lists.Keys == s.lists.Keys
              && forall w | w in s.lists && w != wid :: s'.lists[w] == s.lists[w]
    {
      if InProgress(s, ref) {
        AcceptedIsFront(s, wid, ref);
      }
    }

    static lemma TakesAlike(s: Sched, t: Sched, s': Sched, t': Sched, wid: WorkerId, ref: TaskRef, value: real)
      requires TakesIn(s, s', wid, ref, value)
      requires t.lists == s.lists && t.queries == s.queries && t'.lists == s'.lists && t'.queries == s'.queries
      ensures TakesIn(t, t', wid, ref, value)
    {
    }

    static lemma SolvedIsExact(states: seq<Sched>, acts: seq<Act>, k: nat)
      requires Run(states, acts) && k < |states[|acts|].queries|
      requires states[|acts|].queries[k].toDo == {} && states[|acts|].queries[k].inProgress == {}
      ensures k < |Asks(acts)| && Asks(acts)[k].a < Asks(acts)[k].b
      ensures states[|acts|].queries[k].result == Exact(2.0, 5.0, Asks(acts)[k].a, Asks(acts)[k].b)
    {
      assert acts[..|acts|] == acts;
      FinishedIsExact(states, acts, |acts|, k);
    }

    /** What is sent is a slice of the query that was asked, and stays first in the list. */
    method SendTask(wid: WorkerId) returns (message: Option<(Bounds, TaskRef)>)
      requires Valid() && wid in knownWorkers
      modifies this
      ensures Valid() && newTasks == old(newTasks) && knownWorkers == old(knownWorkers) && queries == old(queries)
      ensures history == old(history) + [Dispatch(wid)] && widToDelete == old(widToDelete)
      ensures message.None? <==> knownWorkers[wid] == []
      ensures message.Some? ==> message.value.1 == knownWorkers[wid][0]
      ensures message.Some? ==> wid in delivered && message.value.1 in delivered[wid]
      ensures message.Some? ==>
        message.value.1.query < |asked| && message.value.0 == Slice(asked[message.value.1.query], message.value.1.task)
    {
      RunInv(states, history, |history|);
      RunExtends(states, history, Dispatch(wid));
      var tasks := knownWorkers[wid];
      message := None;
      if tasks != [] {
        FrontIsSlice(View(), wid);
        var ref := tasks[0];
        message := Some((queries[ref.query].allTasks[ref.task], ref));
        delivered := delivered[wid := delivered[wid] + {ref}];
      }
      Took(Dispatch(wid));
    }

    /** A worker that can be written to is sent the front of its list; if that fails it is closed. */
    method SendIfWritable(wid: WorkerId, writable: bool, sent: bool) returns (message: Option<(Bounds, TaskRef)>)
      requires Valid() && wid in knownWorkers
      modifies this
      ensures Valid() && newTasks == old(newTasks) && knownWorkers == old(knownWorkers) && queries == old(queries)
      ensures var sends := writable && knownWorkers[wid] != [];
              && history == old(history) + (if sends then [if sent then Dispatch(wid) else Lose(wid)] else [])
              && widToDelete == old(widToDelete) + (if sends && !sent then [wid] else [])
              && (message.Some? <==> sends && sent)
      ensures message.Some? ==> message.value.1 == knownWorkers[wid][0]
      ensures message.Some? ==>
        message.value.1.query < |asked| && message.value.0 == Slice(asked[message.value.1.query], message.value.1.task)
    {
      hide Run, Inv, Slice;
      message := None;
      if writable {
        if knownWorkers[wid] == [] {
          return;
        }
        if sent {
          message := SendTask(wid);
        } else {
          CloseConnection(wid);
        }
      }
    }

    /** The sockets of known workers are looked at one by one, lines 236 to 302. */
    method PollSocket(wid: WorkerId, hangup: bool, incoming: Incoming, writable: bool, sent: bool)
        returns (message: Option<(Bounds, TaskRef)>)
      requires Valid() && wid in knownWorkers
      requires incoming.Reply? ==> Enabled(View(), Result(wid, incoming.ref, incoming.value))
      modifies this
      ensures Valid() && newTasks == old(newTasks) && wid in knownWorkers
      ensures history == old(history) + PollActs(wid, hangup, incoming, writable && knownWorkers[wid] != [], sent)
      ensures message.Some? <==> writable && sent && knownWorkers[wid] != []
      ensures message.Some? ==> message.value.1 == knownWorkers[wid][0]
      ensures message.Some? ==>
        message.value.1.query < |asked| && message.value.0 == Slice(asked[message.value.1.query], message.value.1.task)
      ensures var lost := hangup || incoming.Broken? || (writable && !sent && knownWorkers[wid] != []);
              forall w :: w in widToDelete <==> w in old(widToDelete) || (lost && w == wid)
      ensures knownWorkers.Keys == old(knownWorkers).Keys
      ensures forall w | w in knownWorkers && w != wid :: knownWorkers[w] == old(knownWorkers)[w]
      ensures !incoming.Reply? ==> knownWorkers == old(knownWorkers) && queries == old(queries)
      ensures incoming.Reply? ==> TakesIn(old(View()), View(), wid, incoming.ref, incoming.value)
    {
      hide Run, Inv, IsReply, Asks, Exact, Slice, TakesIn;
      ghost var first := View();
      message := None;
      if hangup {
        CloseConnection(wid);
      }
      ghost var before := View();
      match incoming {
        case Quiet =>
        case Broken =>
          CloseConnection(wid);
        case Reply(value, ref) =>
          var solved := HandleResult(wid, value, ref);
      }
      ghost var after := View();
      message := SendIfWritable(wid, writable, sent);
      if incoming.Reply? {
        TakesAlike(before, first, after, View(), wid, incoming.ref, incoming.value);
      }
    }

    static lemma FrontIsSlice(s: Sched, w: WorkerId)
      requires Inv(s) && w in s.lists && s.lists[w] != []
      ensures var ref := s.lists[w][0];
              && ref.query < |s.queries| && ref.query < |s.asked| && ref.task < |s.queries[ref.query].allTasks|
              && s.queries[ref.query].allTasks[ref.task] == Slice(s.asked[ref.query], ref.task)
    {
      FrontIsTask(s, w);
    }
  }
}
