/** Runs in which at most one worker is known at any time: queries are then worked through in the
    order in which they were asked, so an empty interval holds up every query behind it. */
module OneWorker {
  import opened Scheduler
  import opened AssignmentLaws
  import opened SchedulerInvariant
  import opened RoundStep
  import opened SchedulerRuns
  import opened SchedulerProgress

  /** Never is more than one worker known. */
  ghost predicate Alone(r: Course) {
    forall i | 0 <= i < |r.states| :: |r.states[i].lists.Keys| <= 1
  }

  // Lists keep the order of the queries

  predicate Sorted(tasks: seq<TaskRef>) {
    forall i, j | 0 <= i < j < |tasks| :: tasks[i].query <= tasks[j].query
  }

  /** What has not been handed out is of later queries than all that has. */
  ghost predicate WaitsBehind(queries: seq<Query>, tasks: seq<TaskRef>) {
    forall ref, k | ref in tasks && 0 <= k < |queries| && queries[k].toDo != {} :: ref.query < k
  }

  ghost predicate InTurn(s: Sched) {
    forall w | w in s.lists :: Sorted(s.lists[w]) && WaitsBehind(s.queries, s.lists[w])
  }

  lemma SortedJoined(front: seq<TaskRef>, back: seq<TaskRef>)
    requires Sorted(front) && Sorted(back) && forall x, y | x in front && y in back :: x.query <= y.query
    ensures Sorted(front + back)
  {
  }

  lemma SameQuerySorted(tasks: seq<TaskRef>, k: nat)
    requires forall ref | ref in tasks :: ref.query == k
    ensures Sorted(tasks)
  {
    assert forall i | 0 <= i < |tasks| :: tasks[i] in tasks;
  }

  lemma {:induction false} BacklogSorted(queries: seq<Query>, n: nat)
    requires n <= |queries|
    requires forall k | 0 <= k < n :: queries[k].toDo <= UpTo(|queries[k].allTasks|)
    ensures Sorted(AllWaiting(queries, n))
  {
    if n > 0 {
      BacklogSorted(queries, n - 1);
      AllWaitingIsToDo(queries, n - 1);
      WaitingIsToDo(n - 1, queries[n - 1].toDo, |queries[n - 1].allTasks|);
      var front, back := AllWaiting(queries, n - 1), Waiting(n - 1, queries[n - 1].toDo, |queries[n - 1].allTasks|);
      SameQuerySorted(back, n - 1);
      hide Sorted, NoRepeats;
      SortedJoined(front, back);
      assert AllWaiting(queries, n) == front + back;
    }
  }

  /** A single worker gets all tasks, in their order. */
  lemma {:induction false} AllToOne(lists: map<WorkerId, seq<TaskRef>>, w: WorkerId, tasks: seq<TaskRef>)
    requires lists.Keys == {w}
    ensures AssignAll(lists, tasks) == lists[w := lists[w] + tasks]
    decreases |tasks|
  {
    if tasks == [] {
      assert lists[w] + tasks == lists[w];
    } else {
      var k := |tasks| - 1;
      AllToOne(lists, w, tasks[..k]);
      var before := AssignAll(lists, tasks[..k]);
      assert Least(before) in before.Keys;
      assert lists[w] + tasks[..k] + [tasks[k]] == lists[w] + tasks by { assert tasks == tasks[..k] + [tasks[k]]; }
    }
  }

  lemma OnlyKey(lists: map<WorkerId, seq<TaskRef>>, w: WorkerId)
    requires w in lists && |lists.Keys| <= 1
    ensures lists.Keys == {w}
  {
    assert |lists.Keys - {w}| == |lists.Keys| - 1;
  }

  lemma BacklogOk(s: Sched)
    requires Inv(s)
    ensures Sorted(Backlog(s))
    ensures forall ref :: ref in Backlog(s) <==>
      ref.query < |s.queries| && ref.task in s.queries[ref.query].toDo
  {
    forall k | 0 <= k < |s.queries| ensures s.queries[k].toDo <= UpTo(|s.queries[k].allTasks|) {
      assert QueryOk(s.queries[k], s.asked[k]);
    }
    BacklogSorted(s.queries, |s.queries|);
    AllWaitingIsToDo(s.queries, |s.queries|);
  }

  lemma NobodyToRemove(s: Sched, ws: seq<WorkerId>, w: WorkerId)
    requires s.lists.Keys == {w} && IsRemoval(s, ws) && w !in ws
    ensures ws == [] && s.lists - (set v | v in ws) == s.lists
  {
    FirstIsElement(ws);
  }

  lemma FirstIsElement(ws: seq<WorkerId>)
    ensures ws == [] || ws[0] in ws
  {
  }

  /** A worker that stays gets the whole backlog behind what it has. */
  lemma BacklogInTurn(s: Sched, w: WorkerId)
    requires Inv(s) && w in s.lists && Sorted(s.lists[w]) && WaitsBehind(s.queries, s.lists[w])
    ensures Sorted(s.lists[w] + Backlog(s)) && WaitsBehind(SwapAll(s.queries), s.lists[w] + Backlog(s))
  {
    BacklogOk(s);
    SharedOutKeepsQueries(s);
    hide Inv, Backlog, Swap;
    SortedJoined(s.lists[w], Backlog(s));
  }

  lemma RoundAppends(s: Sched, ws: seq<WorkerId>, w: WorkerId)
    requires s.lists.Keys == {w} && IsRemoval(s, ws) && Defined(s, Round(ws)) && w !in ws
    ensures Reschedule(s, ws).lists == s.lists[w := s.lists[w] + Backlog(s)]
    ensures Reschedule(s, ws).queries == SwapAll(s.queries)
  {
    NobodyToRemove(s, ws, w);
    AllToOne(s.lists, w, Backlog(s));
    hide IsRemoval, Defined, AssignAll, SwapAll, AllWaiting, PutBack;
    assert Orphans(s.lists, ws) + Backlog(s) == Backlog(s);
  }

  lemma RoundInTurn(s: Sched, ws: seq<WorkerId>)
    requires Inv(s) && InTurn(s) && |s.lists.Keys| <= 1 && IsRemoval(s, ws) && Defined(s, Round(ws))
    ensures InTurn(Reschedule(s, ws))
  {
    if w :| w in s.lists && w !in ws {
      OnlyKey(s.lists, w);
      BacklogInTurn(s, w);
      RoundAppends(s, ws, w);
      hide Inv, Sorted, WaitsBehind, Reschedule, Backlog, SwapAll;
    } else {
      assert (s.lists - (set w | w in ws)).Keys == {};
      hide Inv, PutBack, Orphans;
    }
  }

  lemma StepInTurn(s: Sched, a: Act)
    requires Inv(s) && InTurn(s) && |s.lists.Keys| <= 1 && Enabled(s, a) && Defined(s, a)
    requires |Step(s, a).lists.Keys| <= 1
    ensures InTurn(Step(s, a))
  {
    match a
    case Round(ws) => RoundInTurn(s, ws);
    case Ask(q) => AskInTurn(s, q);
    case Result(w, ref, value) => ResultInTurn(s, a);
    case _ =>
  }

  lemma AskInTurn(s: Sched, q: Bounds)
    requires Inv(s) && InTurn(s)
    ensures InTurn(AddQuery(s, q))
  {
    forall w | w in s.lists ensures WaitsBehind(AddQuery(s, q).queries, s.lists[w]) {
      forall ref | ref in s.lists[w] ensures ref.query < |s.queries| {
        assert Holds(s.lists, ref) && InProgress(s, ref);
      }
    }
  }

  lemma ResultInTurn(s: Sched, a: Act)
    requires InTurn(s) && a.Result? && Enabled(s, a) && Defined(s, a)
    ensures InTurn(Step(s, a))
  {
    hide IsReply;
    var s', w := Step(s, a), a.worker;
    assert forall k | 0 <= k < |s.queries| :: s'.queries[k].toDo == s.queries[k].toDo;
    forall v | v in s'.lists ensures Sorted(s'.lists[v]) && WaitsBehind(s'.queries, s'.lists[v]) {
      assert Sorted(s.lists[v]) && WaitsBehind(s.queries, s.lists[v]);
    }
  }

  lemma Beginning(r: Course)
    requires IsRun(r)
    ensures r.states[0].queries == [] && InTurn(r.states[0])
  {
  }

  lemma {:induction false} RunInTurn(r: Course, n: nat)
    requires IsRun(r) && Alone(r) && n < |r.states|
    ensures InTurn(r.states[n])
  {
    hide Run, Inv, InTurn, Step, Defined, Enabled;
    if n == 0 {
      Beginning(r);
    } else {
      RunInTurn(r, n - 1);
      StepAt(r.states, r.acts, n - 1);
      RunInv(r.states, r.acts, n - 1);
      StepInTurn(r.states[n - 1], r.acts[n - 1]);
    }
  }

  // An empty query blocks those behind it

  /** All tasks of a query over an empty interval stay open. */
  lemma EmptyStaysOpen(s: Sched, e: nat)
    requires Inv(s) && e < |s.asked| && !Nonempty(s.asked[e])
    ensures e < |s.queries| && Open(s.queries[e]) == UpTo(SLICES)
  {
    var q, asked := s.queries[e], s.asked[e];
    assert QueryOk(q, asked);
    forall i: nat | i < SLICES ensures i in Open(q) {
      SlicesNonempty(asked, i);
    }
  }

  lemma InSomeList(s: Sched, w: WorkerId, ref: TaskRef)
    requires Inv(s) && s.lists.Keys == {w} && InProgress(s, ref)
    ensures ref in s.lists[w]
  {
    assert Holds(s.lists, ref);
  }

  lemma FrontIsFirst(s: Sched, w: WorkerId, k: nat, i: nat)
    requires InTurn(s) && w in s.lists && s.lists[w] != [] && k < |s.queries|
    requires TaskRef(k, i) in s.lists[w] || s.queries[k].toDo != {}
    ensures s.lists[w][0].query <= k
  {
    assert Sorted(s.lists[w]) && WaitsBehind(s.queries, s.lists[w]);
    assert s.lists[w][0] in s.lists[w];
  }

  lemma BehindEmptyWaits(s: Sched, w: WorkerId, e: nat)
    requires Inv(s) && InTurn(s) && |s.lists.Keys| <= 1 && e < |s.asked| && !Nonempty(s.asked[e])
    requires w in s.lists && s.lists[w] != []
    ensures s.lists[w][0].query <= e
  {
    EmptyStaysOpen(s, e);
    OnlyKey(s.lists, w);
    assert 0 in Open(s.queries[e]);
    hide Inv, InTurn;
    if 0 in s.queries[e].inProgress {
      InSomeList(s, w, TaskRef(e, 0));
    }
    FrontIsFirst(s, w, e, 0);
  }

  /** No result is accepted for a query behind an empty one. */
  lemma NothingAccepted(s: Sched, a: Act, e: nat, ref: TaskRef)
    requires Inv(s) && InTurn(s) && |s.lists.Keys| <= 1 && Enabled(s, a)
    requires e < |s.asked| && !Nonempty(s.asked[e]) && e < ref.query
    ensures !Accepts(s, a, ref)
  {
    if Accepts(s, a, ref) {
      AcceptedIsFront(s, a.worker, ref);
      BehindEmptyWaits(s, a.worker, e);
    }
  }

  lemma StepKeepsAsked(s: Sched, a: Act)
    requires Enabled(s, a) && Defined(s, a)
    ensures Step(s, a).asked == s.asked + if a.Ask? then [a.bounds] else []
  {
  }

  lemma BlockedStep(s: Sched, a: Act, e: nat, ref: TaskRef)
    requires Inv(s) && InTurn(s) && |s.lists.Keys| <= 1 && Enabled(s, a) && Defined(s, a)
    requires e < |Step(s, a).asked| && !Nonempty(Step(s, a).asked[e])
    requires e < ref.query < |Step(s, a).queries| && ref.task < SLICES
    requires ref.query < |s.queries| ==> IsOpen(s, ref)
    ensures IsOpen(Step(s, a), ref)
  {
    OpenFollowsStep(s, a, ref);
    StepKeepsAsked(s, a);
    assert |s.asked| == |s.queries|;
    hide Inv, InTurn, Step, Defined, Enabled, Accepts, IsOpen;
    if ref.query < |s.queries| {
      NothingAccepted(s, a, e, ref);
    }
  }

  lemma {:induction false} BlockedTask(r: Course, n: nat, e: nat, ref: TaskRef)
    requires IsRun(r) && Alone(r) && n < |r.states|
    requires e < |r.states[n].asked| && !Nonempty(r.states[n].asked[e])
    requires e < ref.query < |r.states[n].queries| && ref.task < SLICES
    ensures IsOpen(r.states[n], ref)
  {
    hide Run, Inv, InTurn, Step, Defined, Enabled, IsOpen, Nonempty;
    if n == 0 {
      Beginning(r);
    } else {
      StepAt(r.states, r.acts, n - 1);
      RunInv(r.states, r.acts, n - 1);
      var s, a := r.states[n - 1], r.acts[n - 1];
      RunInTurn(r, n - 1);
      StepKeepsAsked(s, a);
      if ref.query < |s.queries| {
        assert |s.asked| == |s.queries| by { InvQueries(s); }
        BlockedTask(r, n - 1, e, ref);
      }
      BlockedStep(s, a, e, ref);
    }
  }

  /** With never more than one worker known, a query asked after one whose interval is empty gets no
      result at all: all its tasks stay open, whatever its own interval. */
  lemma EmptyBlocks(r: Course, e: nat, k: nat)
    requires IsRun(r) && Alone(r) && e < k < |Asks(r.acts)| && !Nonempty(Asks(r.acts)[e])
    ensures k < |Now(r).queries| && Open(Now(r).queries[k]) == UpTo(SLICES) && Now(r).queries[k].result == 0.0
    ensures !Finished(Now(r), k)
  {
    AskedNow(r);
    var q := Now(r).queries[k];
    assert QueryOk(q, Now(r).asked[k]);
    forall i: nat | i < SLICES ensures i in Open(q) {
      BlockedTask(r, |r.states| - 1, e, TaskRef(k, i));
    }
    NothingDone(Now(r).asked[k], Open(q), SLICES);
    assert 0 in Open(q);
  }

  // What a single worker can finish

  lemma FrontNoLater(s: Sched, w: WorkerId, k: nat, i: nat)
    requires Inv(s) && s.lists.Keys == {w} && Sorted(s.lists[w])
    requires k < |s.queries| && i in s.queries[k].inProgress
    ensures s.lists[w] != [] && s.lists[w][0].query <= k && |s.asked| == |s.queries|
  {
    InSomeList(s, w, TaskRef(k, i));
  }

  lemma RestSorted(tasks: seq<TaskRef>)
    requires Sorted(tasks) && tasks != []
    ensures Sorted(tasks[1..])
  {
  }

  /** The worker takes its tasks in order until query `k` is finished. */
  lemma {:induction false} WorkThrough(r: Course, w: WorkerId, k: nat) returns (r': Course)
    requires IsRun(r) && Now(r).lists.Keys == {w} && Sorted(Now(r).lists[w])
    requires k < |Now(r).queries| && Now(r).queries[k].toDo == {}
    requires k < |Now(r).asked| && forall e | 0 <= e <= k :: Nonempty(Now(r).asked[e])
    ensures IsRun(r') && Extends(r, r', 1) && Finished(Now(r'), k)
    decreases |Now(r).lists[w]|
  {
    var s := Now(r);
    if s.queries[k].inProgress == {} {
      r' := r;
      ExtendsItself(r, 1);
    } else {
      var i :| i in s.queries[k].inProgress;
      RunInv(r.states, r.acts, |r.acts|);
      hide Run, Inv, Extends, Sorted, FrontDone;
      FrontNoLater(s, w, k, i);
      RestSorted(s.lists[w]);
      assert Nonempty(s.asked[s.lists[w][0].query]);
      var r1 := FinishFront(r, w, 1);
      FrontDoneKeys(s, Now(r1), w);
      hide Nonempty;
      r' := WorkThrough(r1, w, k);
      ExtendsFurther(r, r1, r', 1);
    }
  }

  lemma AloneCanFinish(r: Course, k: nat) returns (r': Course)
    requires IsRun(r) && Alone(r) && k < |Asks(r.acts)|
    requires forall e | 0 <= e <= k :: Nonempty(Asks(r.acts)[e])
    ensures IsRun(r') && Extends(r, r', 1) && Finished(Now(r'), k)
  {
    AskedNow(r);
    hide Run, Inv, Extends, Asks, Nonempty, Backlog, AssignAll;
    var r1 := Abandon(r, 1);
    AskedNow(r1);
    BacklogOk(Now(r1));
    var r2 := StartAgain(r1, 1, 1);
    AskedNow(r2);
    assert Idle(1).Keys == {0};
    AllToOne(Idle(1), 0, Backlog(Now(r1)));
    assert [] + Backlog(Now(r1)) == Backlog(Now(r1));
    r' := WorkThrough(r2, 0, k);
    ExtendsFurther(r, r1, r2, 1);
    ExtendsFurther(r, r2, r', 1);
  }

  lemma StillAlone(r: Course, r': Course)
    requires Alone(r) && Extends(r, r', 1)
    ensures Alone(r') && Later(r, r')
  {
    hide Run;
    forall i | 0 <= i < |r'.states| ensures |r'.states[i].lists.Keys| <= 1 {
      if i < |r.states| {
        assert r'.states[i] == r.states[i];
      }
    }
  }

  /** Some continuation in which never more than one worker is known finishes query `k`. */
  ghost predicate CanFinishAlone(r: Course, k: nat) {
    exists r': Course :: IsRun(r') && Later(r, r') && Alone(r') && Finished(Now(r'), k)
  }

  lemma AllBeforeNonempty(r: Course, r': Course, e: nat, k: nat)
    requires IsRun(r) && IsRun(r') && Later(r, r') && Alone(r') && Finished(Now(r'), k)
    requires e <= k < |Asks(r.acts)|
    ensures Nonempty(Asks(r.acts)[e])
  {
    AsksGrow(r.acts, r'.acts);
    if e == k {
      FinishedIsNonempty(r, r', k);
    } else if !Nonempty(Asks(r.acts)[e]) {
      EmptyBlocks(r', e, k);
    }
  }

  /** From any state of a run with never more than one worker known, such a run can finish a query that
      has been asked if and only if neither its interval nor any asked before it is empty. */
  lemma CanFinishAloneIff(r: Course, k: nat)
    requires IsRun(r) && Alone(r) && k < |Asks(r.acts)|
    ensures CanFinishAlone(r, k) <==> forall e | 0 <= e <= k :: Nonempty(Asks(r.acts)[e])
  {
    hide Run, Asks, Nonempty, Alone;
    if forall e | 0 <= e <= k :: Nonempty(Asks(r.acts)[e]) {
      var r' := AloneCanFinish(r, k);
      StillAlone(r, r');
      assert CanFinishAlone(r, k);
    }
    if CanFinishAlone(r, k) {
      var r': Course :| IsRun(r') && Later(r, r') && Alone(r') && Finished(Now(r'), k);
      forall e | 0 <= e <= k ensures Nonempty(Asks(r.acts)[e]) {
        AllBeforeNonempty(r, r', e, k);
      }
    }
  }
}
