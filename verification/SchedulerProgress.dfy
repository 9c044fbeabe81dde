/** Which queries can still be finished: from any state of any run, exactly those whose interval is
    not empty. Replacing all workers by enough new ones brings every task to the front of a list. */
module SchedulerProgress {
  import opened Integral
  import opened Scheduler
  import opened AssignmentLaws
  import opened SchedulerInvariant
  import opened RoundStep
  import opened SchedulerRuns

  /** A run up to the present moment. */
  datatype Course = Course(states: seq<Sched>, acts: seq<Act>)

  ghost predicate IsRun(r: Course) { r.states != [] && Run(r.states, r.acts) }

  function Now(r: Course): Sched
    requires r.states != []
  {
    r.states[|r.states| - 1]
  }

  ghost predicate Later(r: Course, r': Course) {
    r.states <= r'.states && r.acts <= r'.acts
  }

  /** `r'` continues `r`, and all that time at most `cap` workers are known. */
  ghost predicate Extends(r: Course, r': Course, cap: nat) {
    && IsRun(r) && IsRun(r')
    && Later(r, r')
    && forall i | |r.states| <= i < |r'.states| :: |r'.states[i].lists.Keys| <= cap
  }

  lemma ExtendsFurther(r: Course, r': Course, r'': Course, cap: nat)
    requires Extends(r, r', cap) && Extends(r', r'', cap)
    ensures Extends(r, r'', cap)
  {
    hide Run;
  }

  lemma ExtendsItself(r: Course, cap: nat)
    requires IsRun(r)
    ensures Extends(r, r, cap)
  {
  }

  lemma ExtendsIsLater(r: Course, r': Course, cap: nat)
    requires Extends(r, r', cap)
    ensures Later(r, r')
  {
  }

  lemma Go(r: Course, a: Act, cap: nat) returns (r': Course)
    requires IsRun(r) && Enabled(Now(r), a)
    ensures IsRun(r') && Inv(Now(r)) && Defined(Now(r), a) && Now(r') == Step(Now(r), a) && Inv(Now(r'))
    ensures |Now(r').lists.Keys| <= cap ==> Extends(r, r', cap)
  {
    hide Inv, Enabled, Step, Defined;
    RunExtends(r.states, r.acts, a);
    r' := Course(r.states + [Step(Now(r), a)], r.acts + [a]);
    StepKeepsInv(Now(r), a);
  }

  // All workers are lost

  lemma {:induction false} LoseAll(r: Course, ws: set<WorkerId>, cap: nat) returns (r': Course)
    requires IsRun(r) && |Now(r).lists.Keys| <= cap
    ensures IsRun(r') && Extends(r, r', cap) && Now(r') == Now(r).(toDelete := Now(r).toDelete + ws)
    decreases |ws|
  {
    hide Run, Inv, Extends;
    if ws == {} {
      r' := r;
      ExtendsItself(r, cap);
      assert Now(r).toDelete + ws == Now(r).toDelete;
    } else {
      var w :| w in ws;
      var r1 := Go(r, Lose(w), cap);
      r' := LoseAll(r1, ws - {w}, cap);
      assert Now(r).toDelete + {w} + (ws - {w}) == Now(r).toDelete + ws;
      ExtendsFurther(r, r1, r', cap);
    }
  }

  lemma {:induction false} Greatest(ws: set<WorkerId>) returns (w: WorkerId)
    requires ws != {}
    ensures w in ws && forall v | v in ws :: v <= w
    decreases |ws|
  {
    var x :| x in ws;
    assert forall v | v in ws :: v == x || v in ws - {x};
    if ws == {x} {
      w := x;
    } else {
      var v: WorkerId := Greatest(ws - {x});
      w := if x < v then v else x;
    }
  }

  lemma {:induction false} InAscendingOrder(ws: set<WorkerId>) returns (r: seq<WorkerId>)
    ensures Ascending(r) && forall w :: w in r <==> w in ws
    decreases |ws|
  {
    if ws == {} {
      r := [];
    } else {
      var w := Greatest(ws);
      r := InAscendingOrder(ws - {w});
      assert forall i | 0 <= i < |r| :: r[i] in ws - {w};
      r := r + [w];
    }
  }

  lemma AllRemoved(s: Sched, ws: seq<WorkerId>)
    requires Inv(s) && IsRemoval(s, ws) && Defined(s, Round(ws)) && forall w | w in s.lists :: w in ws
    ensures var s' := Reschedule(s, ws);
            s'.lists == map[] && s'.delivered == map[] && s'.toDelete == {} && s'.asked == s.asked
  {
    OrphansKnown(s.lists, ws);
    assert (s.lists - (set w | w in ws)) == map[];
    assert (s.delivered - (set w | w in ws)) == map[];
  }

  ghost predicate NobodyWorks(s: Sched) {
    s.toDelete == {} && forall k | 0 <= k < |s.queries| :: s.queries[k].inProgress == {}
  }

  lemma NothingHeld(s: Sched)
    requires Inv(s) && s.lists == map[]
    ensures forall k | 0 <= k < |s.queries| :: s.queries[k].inProgress == {}
  {
    forall k, i | 0 <= k < |s.queries| ensures i !in s.queries[k].inProgress {
      var ref := TaskRef(k, i);
      assert Holds(s.lists, ref) <==> InProgress(s, ref);
    }
  }

  /** All workers go, and every open task is put back. */
  lemma Abandon(r: Course, cap: nat) returns (r': Course)
    requires IsRun(r) && |Now(r).lists.Keys| <= cap
    ensures IsRun(r') && Extends(r, r', cap) && NobodyWorks(Now(r'))
    ensures Now(r').lists == map[] && Now(r').delivered == map[] && Now(r').asked == Now(r).asked
  {
    hide Run, Inv, Extends, Reschedule;
    var s := Now(r);
    var r1 := LoseAll(r, s.lists.Keys, cap);
    var ws := InAscendingOrder(s.lists.Keys);
    assert IsRemoval(Now(r1), ws);
    r' := Go(r1, Round(ws), cap);
    AllRemoved(Now(r1), ws);
    NothingHeld(Now(r'));
    ExtendsFurther(r, r1, r', cap);
  }

  // New workers

  lemma {:induction false} UpToSize(n: nat)
    ensures |UpTo(n)| == n
  {
    if n > 0 {
      UpToSize(n - 1);
    }
  }

  function Idle(n: nat): map<WorkerId, seq<TaskRef>> { map w | w in UpTo(n) :: [] }

  function Unsent(n: nat): map<WorkerId, set<TaskRef>> { map w | w in UpTo(n) :: {} }

  lemma IdleSize(n: nat)
    ensures |Idle(n).Keys| == n
  {
    UpToSize(n);
    assert Idle(n).Keys == UpTo(n);
  }

  lemma OneMoreIdle(n: nat)
    ensures Idle(n + 1) == Idle(n)[n := []] && Unsent(n + 1) == Unsent(n)[n := {}] && n !in Idle(n)
  {
  }

  lemma {:induction false} JoinAll(r: Course, n: nat, cap: nat) returns (r': Course)
    requires IsRun(r) && Now(r).lists == map[] && Now(r).delivered == map[] && n <= cap
    ensures IsRun(r') && Extends(r, r', cap) && Now(r') == Now(r).(lists := Idle(n), delivered := Unsent(n))
  {
    hide Run, Inv, Extends;
    if n == 0 {
      r' := r;
      ExtendsItself(r, cap);
      assert Idle(0) == map[] && Unsent(0) == map[];
    } else {
      IdleSize(n);
      OneMoreIdle(n - 1);
      hide Idle, Unsent;
      var r1 := JoinAll(r, n - 1, cap);
      r' := Go(r1, Join(n - 1), cap);
      ExtendsFurther(r, r1, r', cap);
    }
  }

  /** The tasks of all queries, in the order in which a round hands them out. */
  function Backlog(s: Sched): seq<TaskRef> { AllWaiting(s.queries, |s.queries|) }

  ghost predicate AllHandedOut(s: Sched) {
    forall k | 0 <= k < |s.queries| :: s.queries[k].toDo == {}
  }

  lemma NobodyRemoved(s: Sched)
    requires s.toDelete == {} && s.lists.Keys != {} && IsRemoval(s, []) && Defined(s, Round([]))
    ensures Reschedule(s, []).lists == AssignAll(s.lists, Backlog(s)) && Reschedule(s, []).asked == s.asked
    ensures Reschedule(s, []).queries == SwapAll(s.queries)
  {
    hide AssignAll, AllWaiting, SwapAll, IsRemoval;
    assert s.lists - (set w | w in []) == s.lists;
    assert Orphans(s.lists, []) + Backlog(s) == Backlog(s);
  }

  lemma InvQueries(s: Sched)
    requires Inv(s)
    ensures QueriesOk(s)
  {
  }

  lemma SwappedHandsOut(s: Sched)
    requires QueriesOk(s)
    ensures AllHandedOut(s.(queries := SwapAll(s.queries)))
  {
    SharedOutKeepsQueries(s);
  }

  /** After all old workers have gone, `n` new ones share the open tasks. */
  lemma StartAgain(r: Course, n: nat, cap: nat) returns (r': Course)
    requires IsRun(r) && NobodyWorks(Now(r)) && Now(r).lists == map[] && Now(r).delivered == map[]
    requires 1 <= n <= cap
    ensures IsRun(r') && Extends(r, r', cap) && AllHandedOut(Now(r')) && Now(r').asked == Now(r).asked
    ensures Idle(n).Keys == UpTo(n) && 0 in Idle(n) && Now(r').lists == AssignAll(Idle(n), Backlog(Now(r)))
  {
    hide Run, Inv, Extends, Reschedule, AssignAll, SwapAll, QueriesOk;
    assert Idle(n).Keys == UpTo(n) && 0 in UpTo(n);
    var r1 := JoinAll(r, n, cap);
    assert IsRemoval(Now(r1), []);
    r' := Go(r1, Round([]), cap);
    NobodyRemoved(Now(r1));
    assert QueriesOk(Now(r1)) by { InvQueries(Now(r1)); }
    SwappedHandsOut(Now(r1));
    UpToSize(n);
    ExtendsFurther(r, r1, r', cap);
  }

  // One task is finished

  predicate Finished(s: Sched, k: nat) {
    k < |s.queries| && s.queries[k].toDo == {} && s.queries[k].inProgress == {}
  }

  predicate Nonempty(q: Bounds) { q.a < q.b }

  lemma SlicesNonempty(q: Bounds, i: nat)
    ensures Slice(q, i).a < Slice(q, i).b <==> q.a < q.b
  {
    var step := (q.b - q.a) / SLICES as real;
    assert Slice(q, i).b == Slice(q, i).a + step by {
      assert step * (i + 1) as real == step * i as real + step;
    }
  }

  /** As `s`, without the front of the list of `w`, which is finished. */
  ghost predicate FrontDone(s: Sched, s': Sched, w: WorkerId)
    requires w in s.lists && s.lists[w] != []
  {
    var ref := s.lists[w][0];
    && s'.lists == s.lists[w := s.lists[w][1..]] && s'.asked == s.asked && |s'.queries| == |s.queries|
    && forall k | 0 <= k < |s.queries| ::
         && s'.queries[k].toDo == s.queries[k].toDo
         && s'.queries[k].inProgress == s.queries[k].inProgress - if k == ref.query then {ref.task} else {}
  }

  function ValueOf(q: Bounds, i: nat): real
    requires Slice(q, i).a < Slice(q, i).b
  {
    MidpointRule(Linear(2.0, 5.0), Slice(q, i).a, Slice(q, i).b, POINTS)
  }

  /** The front can be sent and its result taken. */
  lemma FrontCanBeDone(s: Sched, w: WorkerId)
    requires Inv(s) && w in s.lists && s.lists[w] != []
    requires var q := s.lists[w][0].query; q < |s.asked| && s.asked[q].a < s.asked[q].b
    ensures Enabled(s, Dispatch(w)) && s.lists[w][0].task < SLICES
    ensures var ref := s.lists[w][0]; var q := s.asked[ref.query];
            Slice(q, ref.task).a < Slice(q, ref.task).b
            && Enabled(Send(s, w), Result(w, ref, ValueOf(q, ref.task)))
  {
    var ref := s.lists[w][0];
    FrontIsTask(s, w);
    SlicesNonempty(s.asked[ref.query], ref.task);
    hide Inv, Slice, MidpointRule;
    assert w in s.delivered by { assert DeliveredOk(s) by { InvDelivered(s); } }
  }

  lemma InvDelivered(s: Sched)
    requires Inv(s)
    ensures DeliveredOk(s)
  {
  }

  lemma FrontIsDone(s: Sched, w: WorkerId, a: Act)
    requires Inv(s) && Enabled(s, Dispatch(w)) && s.lists[w] != [] && InProgress(s, s.lists[w][0])
    requires a.Result? && a.worker == w && a.ref == s.lists[w][0]
    requires Enabled(Send(s, w), a) && Defined(Send(s, w), a)
    ensures FrontDone(s, Step(Send(s, w), a), w)
  {
    hide Inv, IsReply;
  }

  lemma SendFront(r: Course, w: WorkerId, cap: nat) returns (r': Course)
    requires IsRun(r) && |Now(r).lists.Keys| <= cap && Enabled(Now(r), Dispatch(w))
    ensures IsRun(r') && Extends(r, r', cap) && Now(r') == Send(Now(r), w)
    ensures |Now(r').lists.Keys| <= cap
  {
    hide Run, Inv, Extends;
    r' := Go(r, Dispatch(w), cap);
  }

  lemma TakeResult(r: Course, a: Act, cap: nat) returns (r': Course)
    requires IsRun(r) && |Now(r).lists.Keys| <= cap && a.Result? && Enabled(Now(r), a)
    ensures IsRun(r') && Extends(r, r', cap) && Defined(Now(r), a) && Now(r') == Step(Now(r), a)
  {
    hide Run, Inv, Extends, IsReply;
    r' := Go(r, a, cap);
    assert Now(r').lists.Keys == Now(r).lists.Keys;
  }

  lemma FrontDoneKeys(s: Sched, s': Sched, w: WorkerId)
    requires w in s.lists && s.lists[w] != [] && FrontDone(s, s', w)
    ensures s'.lists.Keys == s.lists.Keys && s'.asked == s.asked && |s'.queries| == |s.queries|
    ensures s'.lists[w] == s.lists[w][1..]
    ensures Spread(s.lists) ==> Spread(s'.lists)
    ensures var ref := s.lists[w][0];
            forall k | 0 <= k < |s.queries| ::
              && s'.queries[k].toDo == s.queries[k].toDo
              && s'.queries[k].inProgress == s.queries[k].inProgress - if k == ref.query then {ref.task} else {}
  {
  }

  lemma FinishFront(r: Course, w: WorkerId, cap: nat) returns (r': Course)
    requires IsRun(r) && |Now(r).lists.Keys| <= cap && w in Now(r).lists && Now(r).lists[w] != []
    requires var q := Now(r).lists[w][0].query; q < |Now(r).asked| && Now(r).asked[q].a < Now(r).asked[q].b
    ensures IsRun(r') && Extends(r, r', cap) && FrontDone(Now(r), Now(r'), w)
  {
    var s := Now(r);
    RunInv(r.states, r.acts, |r.acts|);
    FrontIsTask(s, w);
    FrontCanBeDone(s, w);
    var a := Result(w, s.lists[w][0], ValueOf(s.asked[s.lists[w][0].query], s.lists[w][0].task));
    hide Run, Inv, Extends, Enabled, Defined, Step, Send, Slice, ValueOf, FrontDone;
    var r1 := SendFront(r, w, cap);
    r' := TakeResult(r1, a, cap);
    FrontIsDone(s, w, a);
    ExtendsFurther(r, r1, r', cap);
  }

  // Every worker has at most one task

  ghost predicate Spread(lists: map<WorkerId, seq<TaskRef>>) {
    forall w | w in lists :: |lists[w]| <= 1
  }

  function Busy(lists: map<WorkerId, seq<TaskRef>>): set<WorkerId> {
    set w | w in lists && lists[w] != []
  }

  /** With at least as many idle workers as tasks, none gets two. */
  lemma {:induction false} TasksSpread(lists: map<WorkerId, seq<TaskRef>>, tasks: seq<TaskRef>)
    requires lists.Keys != {} && (forall w | w in lists :: lists[w] == []) && |tasks| <= |lists.Keys|
    ensures Spread(AssignAll(lists, tasks)) && |Busy(AssignAll(lists, tasks))| <= |tasks|
    decreases |tasks|
  {
    if tasks == [] {
      assert Busy(lists) == {};
    } else {
      var before := AssignAll(lists, tasks[..|tasks| - 1]);
      TasksSpread(lists, tasks[..|tasks| - 1]);
      hide Spread, Busy, IsLeast;
      OneMoreBusy(before, tasks[|tasks| - 1]);
    }
  }

  lemma OneMoreBusy(lists: map<WorkerId, seq<TaskRef>>, ref: TaskRef)
    requires lists.Keys != {} && Spread(lists) && |Busy(lists)| < |lists.Keys|
    ensures var lists' := AssignTo(lists, Least(lists), ref);
            Spread(lists') && |Busy(lists')| <= |Busy(lists)| + 1
  {
    var w := Least(lists);
    IdleIsLeast(lists);
    hide IsLeast;
    assert Busy(AssignTo(lists, w, ref)) == Busy(lists) + {w};
  }

  lemma IdleIsLeast(lists: map<WorkerId, seq<TaskRef>>)
    requires lists.Keys != {} && |Busy(lists)| < |lists.Keys|
    ensures lists[Least(lists)] == []
  {
    var idle := lists.Keys - Busy(lists);
    assert lists.Keys == Busy(lists) + idle;
    assert |lists.Keys| == |Busy(lists)| + |idle|;
    assert idle != {};
    var w :| w in idle;
    assert IsLeast(lists, Least(lists));
  }

  lemma FrontOfItsList(s: Sched, k: nat, i: nat) returns (w: WorkerId)
    requires Inv(s) && Spread(s.lists) && k < |s.queries| && i in s.queries[k].inProgress
    ensures w in s.lists && s.lists[w] == [TaskRef(k, i)]
  {
    assert InProgress(s, TaskRef(k, i));
    assert Holds(s.lists, TaskRef(k, i));
    w :| w in s.lists && TaskRef(k, i) in s.lists[w];
  }

  lemma {:induction false} FinishSpread(r: Course, k: nat, cap: nat) returns (r': Course)
    requires IsRun(r) && |Now(r).lists.Keys| <= cap && Spread(Now(r).lists)
    requires var s := Now(r); k < |s.queries| && s.queries[k].toDo == {}
    requires var s := Now(r); k < |s.asked| && s.asked[k].a < s.asked[k].b
    ensures IsRun(r') && Extends(r, r', cap) && Finished(Now(r'), k)
    decreases |Now(r).queries[k].inProgress|
  {
    var s := Now(r);
    if s.queries[k].inProgress == {} {
      r' := r;
      ExtendsItself(r, cap);
    } else {
      var i :| i in s.queries[k].inProgress;
      RunInv(r.states, r.acts, |r.acts|);
      hide Run, Inv, Extends;
      var w := FrontOfItsList(s, k, i);
      var r1 := FinishFront(r, w, cap);
      FrontDoneKeys(s, Now(r1), w);
      hide FrontDone;
      r' := FinishSpread(r1, k, cap);
      ExtendsFurther(r, r1, r', cap);
    }
  }

  // What can be finished

  lemma LaterStill(r: Course, r': Course, r'': Course)
    requires Later(r, r') && Later(r', r'')
    ensures Later(r, r'')
  {
  }

  /** Some continuation of the run finishes query `k`. */
  ghost predicate CanFinish(r: Course, k: nat) {
    exists r': Course :: IsRun(r') && Later(r, r') && Finished(Now(r'), k)
  }

  lemma AskedNow(r: Course)
    requires IsRun(r)
    ensures Now(r).asked == Asks(r.acts) && |Now(r).queries| == |Now(r).asked| && Inv(Now(r))
  {
    AskedIsAsks(r.states, r.acts, |r.acts|);
    RunInv(r.states, r.acts, |r.acts|);
    assert r.acts[..|r.acts|] == r.acts;
  }

  lemma {:induction false} AsksGrow(acts: seq<Act>, acts': seq<Act>)
    requires acts <= acts'
    ensures Asks(acts) <= Asks(acts')
  {
    if acts != acts' {
      AsksGrow(acts, acts'[..|acts'| - 1]);
    }
  }

  /** As many new workers as open tasks, and one more, get at most one task each. */
  lemma StartSpread(r: Course) returns (r': Course, cap: nat)
    requires IsRun(r) && NobodyWorks(Now(r)) && Now(r).lists == map[] && Now(r).delivered == map[]
    ensures IsRun(r') && Extends(r, r', cap) && AllHandedOut(Now(r')) && Now(r').asked == Now(r).asked
    ensures |Now(r').lists.Keys| <= cap && Spread(Now(r').lists)
  {
    hide Run, Inv, Backlog, Extends;
    cap := |Backlog(Now(r))| + 1;
    r' := StartAgain(r, cap, cap);
    UpToSize(cap);
    assert Idle(cap).Keys == UpTo(cap);
    TasksSpread(Idle(cap), Backlog(Now(r)));
  }

  lemma NonemptyCanFinish(r: Course, k: nat) returns (r': Course)
    requires IsRun(r) && k < |Asks(r.acts)| && Nonempty(Asks(r.acts)[k])
    ensures IsRun(r') && Later(r, r') && Finished(Now(r'), k)
  {
    AskedNow(r);
    var c0 := |Now(r).lists.Keys|;
    hide Run, Inv, Asks, Spread, Extends, Later;
    var r1 := Abandon(r, c0);
    var r2, c2 := StartSpread(r1);
    AskedNow(r2);
    r' := FinishSpread(r2, k, c2);
    ExtendsIsLater(r, r1, c0);
    ExtendsIsLater(r1, r2, c2);
    ExtendsIsLater(r2, r', c2);
    LaterStill(r, r1, r2);
    LaterStill(r, r2, r');
  }

  /** From any state of any run, some continuation finishes a query that has been asked if and only
      if its interval is not empty. */
  lemma CanFinishIff(r: Course, k: nat)
    requires IsRun(r) && k < |Asks(r.acts)|
    ensures CanFinish(r, k) <==> Nonempty(Asks(r.acts)[k])
  {
    if Nonempty(Asks(r.acts)[k]) {
      var r' := NonemptyCanFinish(r, k);
      assert CanFinish(r, k);
    }
    if CanFinish(r, k) {
      var r': Course :| IsRun(r') && Later(r, r') && Finished(Now(r'), k);
      FinishedIsNonempty(r, r', k);
    }
  }

  lemma FinishedIsNonempty(r: Course, r': Course, k: nat)
    requires IsRun(r) && IsRun(r') && Later(r, r') && Finished(Now(r'), k) && k < |Asks(r.acts)|
    ensures Nonempty(Asks(r.acts)[k])
  {
    hide Asks;
    FinishedIsExact(r'.states, r'.acts, |r'.acts|, k);
    assert r'.acts[..|r'.acts|] == r'.acts;
    AsksGrow(r.acts, r'.acts);
  }
}
