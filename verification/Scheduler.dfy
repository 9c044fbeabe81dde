/** The task scheduler of hw1 as a state machine: queries are cut into slices, slices are
    given to workers, sent again and again, reassigned when a worker is lost, and their
    results added up (hw1/src/leader/leader.cpp). */
module Scheduler {
  import opened Integral

  type WorkerId = nat

  const SLICES: nat := 10
  const POINTS: nat := 100

  datatype Bounds = Bounds(a: real, b: real)

  datatype TaskRef = TaskRef(query: nat, task: nat)

  datatype Query = Query(result: real, allTasks: seq<Bounds>, inProgress: set<nat>, toDo: set<nat>)

  /** `lists` has the tasks given to each known worker. `asked` records what each query was asked
      for, and `delivered` which tasks were sent on a worker's present connection. */
  datatype Sched = Sched(
    queries: seq<Query>,
    lists: map<WorkerId, seq<TaskRef>>,
    toDelete: set<WorkerId>,
    asked: seq<Bounds>,
    delivered: map<WorkerId, set<TaskRef>>)

  const IDLE := Sched([], map[], {}, [], map[])

  // New queries

  function Slice(q: Bounds, i: nat): Bounds {
    Bounds(q.a + (q.b - q.a) / SLICES as real * i as real, q.a + (q.b - q.a) / SLICES as real * (i + 1) as real)
  }

  function UpTo(n: nat): (r: set<nat>)
    ensures forall i: nat :: i in r <==> i < n
  {
    if n == 0 then {} else UpTo(n - 1) + {n - 1}
  }

  function Slices(q: Bounds): (r: seq<Bounds>)
    ensures |r| == SLICES && forall i | 0 <= i < SLICES :: r[i] == Slice(q, i)
  {
    seq(SLICES, i requires 0 <= i => Slice(q, i))
  }

  function NewQuery(q: Bounds): Query {
    Query(0.0, Slices(q), {}, UpTo(SLICES))
  }

  function AddQuery(s: Sched, q: Bounds): Sched {
    s.(queries := s.queries + [NewQuery(q)], asked := s.asked + [q])
  }

  // Workers

  function AddWorker(s: Sched, w: WorkerId): Sched {
    if w in s.lists then s
    else s.(lists := s.lists[w := []], delivered := s.delivered[w := {}])
  }

  function LoseWorker(s: Sched, w: WorkerId): Sched {
    s.(toDelete := s.toDelete + {w})
  }

  // Removal and reassignment

  predicate Ascending(ws: seq<WorkerId>) {
    forall i, j | 0 <= i < j < |ws| :: ws[i] < ws[j]
  }

  /** The known workers that are to be removed, sorted and without repetition. */
  ghost predicate IsRemoval(s: Sched, ws: seq<WorkerId>) {
    Ascending(ws) && forall w :: w in ws <==> w in s.toDelete && w in s.lists
  }

  /** What the removed workers had, worker by worker. */
  function Orphans(lists: map<WorkerId, seq<TaskRef>>, ws: seq<WorkerId>): seq<TaskRef>
    requires forall w | w in ws :: w in lists
  {
    if ws == [] then []
    else Orphans(lists, ws[..|ws| - 1]) + lists[ws[|ws| - 1]]
  }

  /** The tasks of a query that still wait, in order of their ids. */
  function Waiting(q: nat, toDo: set<nat>, n: nat): seq<TaskRef> {
    if n == 0 then []
    else Waiting(q, toDo, n - 1) + if n - 1 in toDo then [TaskRef(q, n - 1)] else []
  }

  function AllWaiting(queries: seq<Query>, n: nat): seq<TaskRef>
    requires n <= |queries|
  {
    if n == 0 then []
    else AllWaiting(queries, n - 1) + Waiting(n - 1, queries[n - 1].toDo, |queries[n - 1].allTasks|)
  }

  /** With no worker left an orphan goes back to the tasks to do. */
  function PutBack(queries: seq<Query>, tasks: seq<TaskRef>): (r: seq<Query>)
    requires forall ref | ref in tasks :: ref.query < |queries|
    ensures |r| == |queries|
  {
    if tasks == [] then queries
    else
      var before := PutBack(queries, tasks[..|tasks| - 1]);
      var ref := tasks[|tasks| - 1];
      var q := before[ref.query];
      before[ref.query := q.(inProgress := q.inProgress - {ref.task}, toDo := q.toDo + {ref.task})]
  }

  /** The swap of the two task sets, where there is something to do. */
  function Swap(q: Query): Query {
    if q.toDo == {} then q else q.(toDo := q.inProgress, inProgress := q.toDo)
  }

  function SwapAll(queries: seq<Query>): (r: seq<Query>)
    ensures |r| == |queries| && forall k | 0 <= k < |r| :: r[k] == Swap(queries[k])
  {
    seq(|queries|, k requires 0 <= k < |queries| => Swap(queries[k]))
  }

  /** First in the source's set of pairs: fewest tasks, then smallest id. */
  predicate IsLeast(lists: map<WorkerId, seq<TaskRef>>, w: WorkerId) {
    w in lists && forall v: WorkerId | v in lists ::
      |lists[w]| < |lists[v]| || (|lists[w]| == |lists[v]| && w <= v)
  }

  lemma {:induction false} LeastExists(lists: map<WorkerId, seq<TaskRef>>, among: set<WorkerId>) returns (w: WorkerId)
    requires among != {} && among <= lists.Keys
    ensures w in among
    ensures forall v: WorkerId | v in among ::
      |lists[w]| < |lists[v]| || (|lists[w]| == |lists[v]| && w <= v)
    decreases |among|
  {
    w :| w in among;
    if among != {w} {
      var v: WorkerId := LeastExists(lists, among - {w});
      if |lists[v]| < |lists[w]| || (|lists[w]| == |lists[v]| && v <= w) {
        w := v;
      }
    }
  }

  ghost function Least(lists: map<WorkerId, seq<TaskRef>>): (w: WorkerId)
    requires lists.Keys != {}
    ensures IsLeast(lists, w) && forall v | IsLeast(lists, v) :: v == w
  {
    LeastWitness(lists);
    var w :| IsLeast(lists, w);
    w
  }

  lemma LeastWitness(lists: map<WorkerId, seq<TaskRef>>)
    requires lists.Keys != {}
    ensures exists w :: IsLeast(lists, w)
  {
    var w := LeastExists(lists, lists.Keys);
    assert IsLeast(lists, w);
  }

  function AssignTo(lists: map<WorkerId, seq<TaskRef>>, w: WorkerId, ref: TaskRef): map<WorkerId, seq<TaskRef>>
    requires w in lists
  {
    lists[w := lists[w] + [ref]]
  }

  /** Each task in turn goes to the least loaded worker. */
  ghost function AssignAll(lists: map<WorkerId, seq<TaskRef>>, tasks: seq<TaskRef>): (r: map<WorkerId, seq<TaskRef>>)
    requires lists.Keys != {}
    ensures r.Keys == lists.Keys
  {
    if tasks == [] then lists
    else
      var before := AssignAll(lists, tasks[..|tasks| - 1]);
      AssignTo(before, Least(before), tasks[|tasks| - 1])
  }

  /** Removal of the lost workers, and reassignment of what they had and of what waits. */
  ghost function Reschedule(s: Sched, ws: seq<WorkerId>): Sched
    requires IsRemoval(s, ws)
    requires forall w, ref | w in s.lists && ref in s.lists[w] :: ref.query < |s.queries|
  {
    var left := s.lists - (set w | w in ws);
    var orphans := Orphans(s.lists, ws);
    OrphansKnown(s.lists, ws);
    var kept := s.(lists := left, toDelete := {}, delivered := s.delivered - (set w | w in ws));
    if left.Keys == {} then kept.(queries := PutBack(s.queries, orphans))
    else kept.(queries := SwapAll(s.queries), lists := AssignAll(left, orphans + AllWaiting(s.queries, |s.queries|)))
  }

  lemma {:induction false} OrphansKnown(lists: map<WorkerId, seq<TaskRef>>, ws: seq<WorkerId>)
    requires forall w | w in ws :: w in lists
    ensures forall ref :: ref in Orphans(lists, ws) <==> exists w | w in ws :: ref in lists[w]
  {
    if ws != [] {
      var k := |ws| - 1;
      OrphansKnown(lists, ws[..k]);
      forall ref ensures ref in Orphans(lists, ws) <==> exists w | w in ws :: ref in lists[w] {
        assert ws == ws[..k] + [ws[k]];
        if ref in lists[ws[k]] {
          assert ws[k] in ws;
        }
      }
    }
  }

  // Sending and receiving

  /** The front of the list is sent and stays in it. */
  function Send(s: Sched, w: WorkerId): Sched
    requires w in s.lists && w in s.delivered
  {
    if s.lists[w] == [] then s
    else s.(delivered := s.delivered[w := s.delivered[w] + {s.lists[w][0]}])
  }

  /** A result for a task in progress is added, and the front of the sender's list erased. */
  function Receive(s: Sched, w: WorkerId, ref: TaskRef, value: real): Sched
    requires ref.query < |s.queries| && w in s.lists
    requires ref.task in s.queries[ref.query].inProgress ==> s.lists[w] != []
  {
    var q := s.queries[ref.query];
    if ref.task !in q.inProgress then s
    else
      s.(lists := s.lists[w := s.lists[w][1..]],
         queries := s.queries[ref.query := q.(result := q.result + value, inProgress := q.inProgress - {ref.task})])
  }

  /** What a worker computes for a slice; it throws on an empty interval. */
  predicate IsReply(slice: Bounds, value: real) {
    slice.a < slice.b && value == MidpointRule(Linear(2.0, 5.0), slice.a, slice.b, POINTS)
  }

  // Runs

  datatype Act =
    | Ask(bounds: Bounds)
    | Join(worker: WorkerId)
    | Lose(worker: WorkerId)
    | Round(removed: seq<WorkerId>)
    | Dispatch(worker: WorkerId)
    | Result(worker: WorkerId, ref: TaskRef, value: real)

  /** What the surroundings can do: a worker answers only what was sent on its connection,
      in any order and any number of times. */
  ghost predicate Enabled(s: Sched, a: Act) {
    match a
    case Ask(_) => true
    case Join(_) => true
    case Lose(_) => true
    case Round(ws) => IsRemoval(s, ws)
    case Dispatch(w) => w in s.lists && w in s.delivered
    case Result(w, ref, value) =>
      && w in s.lists && w in s.delivered && ref in s.delivered[w]
      && (ref.query < |s.queries| && ref.task < |s.queries[ref.query].allTasks| ==>
            IsReply(s.queries[ref.query].allTasks[ref.task], value))
  }

  /** The source stays inside its vectors: tasks name queries and slices, and there is a front to
      erase. */
  ghost predicate Defined(s: Sched, a: Act)
    requires Enabled(s, a)
  {
    match a
    case Round(_) => forall w, ref | w in s.lists && ref in s.lists[w] :: ref.query < |s.queries|
    case Result(w, ref, _) =>
      && ref.query < |s.queries| && ref.task < |s.queries[ref.query].allTasks|
      && (ref.task in s.queries[ref.query].inProgress ==> s.lists[w] != [])
    case Dispatch(w) =>
      s.lists[w] != [] ==>
        var ref := s.lists[w][0];
        ref.query < |s.queries| && ref.task < |s.queries[ref.query].allTasks|
    case _ => true
  }

  ghost function Step(s: Sched, a: Act): Sched
    requires Enabled(s, a) && Defined(s, a)
  {
    match a
    case Ask(q) => AddQuery(s, q)
    case Join(w) => AddWorker(s, w)
    case Lose(w) => LoseWorker(s, w)
    case Round(ws) => Reschedule(s, ws)
    case Dispatch(w) => Send(s, w)
    case Result(w, ref, value) => Receive(s, w, ref, value)
  }

  ghost predicate Run(states: seq<Sched>, acts: seq<Act>) {
    && |states| == |acts| + 1 && states[0] == IDLE
    && forall i | 0 <= i < |acts| ::
      Enabled(states[i], acts[i]) && Defined(states[i], acts[i]) && states[i + 1] == Step(states[i], acts[i])
  }
}
