/** Whole runs of the scheduler: nothing is lost, nothing is done twice, and a finished query
    holds the exact integral. */
module SchedulerRuns {
  import opened Integral
  import opened Scheduler
  import opened AssignmentLaws
  import opened SchedulerInvariant
  import opened RoundStep

  lemma InvDefines(s: Sched, a: Act)
    requires Inv(s) && Enabled(s, a)
    ensures Defined(s, a)
  {
    match a
    case Round(_) =>
      forall w, ref | w in s.lists && ref in s.lists[w] ensures ref.query < |s.queries| {
        assert Holds(s.lists, ref) && InProgress(s, ref);
      }
    case Result(w, ref, _) =>
      assert SentOk(s, w, ref);
      assert QueryOk(s.queries[ref.query], s.asked[ref.query]);
    case Dispatch(w) =>
      if s.lists[w] != [] {
        FrontIsTask(s, w);
      }
    case _ =>
  }

  /** The front of a list is a task in progress of a query that was asked. */
  lemma FrontIsTask(s: Sched, w: WorkerId)
    requires Inv(s) && w in s.lists && s.lists[w] != []
    ensures InProgress(s, s.lists[w][0]) && s.lists[w][0].query < |s.asked| && s.lists[w][0].task < SLICES
    ensures var ref := s.lists[w][0]; s.queries[ref.query].allTasks == Slices(s.asked[ref.query])
  {
    var ref := s.lists[w][0];
    assert Holds(s.lists, ref);
    assert QueryOk(s.queries[ref.query], s.asked[ref.query]);
    assert ref.task in UpTo(SLICES);
  }

  lemma StepKeepsInv(s: Sched, a: Act)
    requires Inv(s) && Enabled(s, a) && Defined(s, a)
    ensures Inv(Step(s, a))
  {
    hide Inv;
    match a
    case Ask(q) => AskKeepsInv(s, q);
    case Join(w) => JoinKeepsInv(s, w);
    case Lose(w) => LoseKeepsInv(s, w);
    case Round(ws) => RoundKeepsInv(s, ws);
    case Dispatch(w) => DispatchKeepsInv(s, w);
    case Result(w, ref, value) => ResultKeepsInv(s, w, ref, value);
  }

  lemma RunBegins(states: seq<Sched>, acts: seq<Act>)
    requires Run(states, acts)
    ensures |states| == |acts| + 1 && states[0] == IDLE && Inv(states[0])
  {
    assert forall ref :: !Holds(IDLE.lists, ref) && !InProgress(IDLE, ref);
  }

  lemma StepAt(states: seq<Sched>, acts: seq<Act>, i: nat)
    requires Run(states, acts) && i + 1 < |states|
    ensures i < |acts| && Enabled(states[i], acts[i]) && Defined(states[i], acts[i])
    ensures states[i + 1] == Step(states[i], acts[i])
  {
  }

  lemma {:induction false} RunInv(states: seq<Sched>, acts: seq<Act>, n: nat)
    requires Run(states, acts) && n < |states|
    ensures Inv(states[n])
  {
    hide Run, Inv, Step, Defined, Enabled;
    RunBegins(states, acts);
    if n > 0 {
      RunInv(states, acts, n - 1);
      StepAt(states, acts, n - 1);
      StepKeepsInv(states[n - 1], acts[n - 1]);
    }
  }

  /** No run comes to a step that would index the queries, or the slices of one, out of bounds, or
      erase from an empty list. */
  lemma NeverUndefined(states: seq<Sched>, acts: seq<Act>, n: nat, a: Act)
    requires Run(states, acts) && n < |states| && Enabled(states[n], a)
    ensures Defined(states[n], a)
  {
    RunInv(states, acts, n);
    InvDefines(states[n], a);
  }

  /** Whatever can happen can be the next step of a run. */
  lemma RunExtends(states: seq<Sched>, acts: seq<Act>, a: Act)
    requires Run(states, acts) && Enabled(states[|acts|], a)
    ensures Inv(states[|acts|]) && Defined(states[|acts|], a)
    ensures Run(states + [Step(states[|acts|], a)], acts + [a])
  {
    RunInv(states, acts, |acts|);
    InvDefines(states[|acts|], a);
    hide Inv, Enabled, Defined, Step;
    var states', acts' := states + [Step(states[|acts|], a)], acts + [a];
    forall i | 0 <= i < |acts'|
      ensures Enabled(states'[i], acts'[i]) && Defined(states'[i], acts'[i])
      ensures states'[i + 1] == Step(states'[i], acts'[i])
    {
      if i < |acts| {
        assert states'[i] == states[i] && acts'[i] == acts[i] && states'[i + 1] == states[i + 1];
      }
    }
  }

  // Conservation

  /** The `p`-th place in the list of `w` is for `ref`. */
  predicate At(s: Sched, w: WorkerId, p: nat, ref: TaskRef) {
    w in s.lists && p < |s.lists[w]| && s.lists[w][p] == ref
  }

  /** A task is in progress exactly when it has a place in a list, and then it has one place;
      never are both sets of a query filled, so that swapping them is moving. */
  lemma TasksConserved(states: seq<Sched>, acts: seq<Act>, n: nat, ref: TaskRef)
    requires Run(states, acts) && n < |states|
    ensures InProgress(states[n], ref) <==> exists w, p :: At(states[n], w, p, ref)
    ensures forall w, p, v, r :: At(states[n], w, p, ref) && At(states[n], v, r, ref) ==> w == v && p == r
    ensures forall q | q in states[n].queries ::
      (q.toDo == {} || q.inProgress == {}) && q.toDo + q.inProgress <= UpTo(SLICES)
  {
    var s := states[n];
    RunInv(states, acts, n);
    assert Holds(s.lists, ref) <==> exists w, p :: At(s, w, p, ref) by {
      if Holds(s.lists, ref) {
        var w :| w in s.lists && ref in s.lists[w];
        var p: nat :| p < |s.lists[w]| && s.lists[w][p] == ref;
        assert At(s, w, p, ref);
      }
      if w, p :| At(s, w, p, ref) {
        assert w in s.lists && ref in s.lists[w];
      }
    }
    forall w, p, v, r | At(s, w, p, ref) && At(s, v, r, ref) ensures w == v && p == r {
      assert ref in s.lists[w] && ref in s.lists[v];
      assert NoRepeats(s.lists[w]);
    }
    assert forall k | 0 <= k < |s.queries| :: QueryOk(s.queries[k], s.asked[k]);
  }

  predicate IsOpen(s: Sched, ref: TaskRef) {
    ref.query < |s.queries| && ref.task in Open(s.queries[ref.query])
  }

  /** This step takes a result for `ref` into account. */
  predicate Accepts(s: Sched, a: Act, ref: TaskRef) {
    a.Result? && a.ref == ref && InProgress(s, ref)
  }

  function TimesAccepted(states: seq<Sched>, acts: seq<Act>, ref: TaskRef, n: nat): nat
    requires |states| == |acts| + 1 && n <= |acts|
  {
    if n == 0 then 0
    else TimesAccepted(states, acts, ref, n - 1) + if Accepts(states[n - 1], acts[n - 1], ref) then 1 else 0
  }

  lemma RoundKeepsOpen(s: Sched, ws: seq<WorkerId>, ref: TaskRef)
    requires Inv(s) && IsRemoval(s, ws) && Defined(s, Round(ws))
    ensures IsOpen(Reschedule(s, ws), ref) <==> IsOpen(s, ref)
  {
    OrphansKnown(s.lists, ws);
    if ref.query < |s.queries| {
      if Without(s.lists, ws).Keys == {} {
        PutBackMoves(s.queries, Orphans(s.lists, ws), ref.query);
        RemovalSplits(s.lists, ws);
        assert ref in Orphans(s.lists, ws) ==> Holds(s.lists, ref) && InProgress(s, ref);
        assert ref == TaskRef(ref.query, ref.task);
      } else {
        assert Open(Swap(s.queries[ref.query])) == Open(s.queries[ref.query]);
      }
    }
  }

  /** A task is opened when its query is asked, and closed by the result that is accepted. */
  lemma OpenFollowsStep(s: Sched, a: Act, ref: TaskRef)
    requires Inv(s) && Enabled(s, a) && Defined(s, a) && ref.task < SLICES
    ensures IsOpen(Step(s, a), ref) <==>
      (IsOpen(s, ref) && !Accepts(s, a, ref)) || (a.Ask? && ref.query == |s.queries|)
    ensures |Step(s, a).queries| == |s.queries| + if a.Ask? then 1 else 0
  {
    match a
    case Round(ws) => RoundKeepsOpen(s, ws, ref);
    case Result(w, r, value) =>
      if InProgress(s, r) {
        assert QueryOk(s.queries[r.query], s.asked[r.query]);
      }
    case _ =>
  }

  /** Whatever workers come and go and however often results come, each task of a query is
      still open or has been accepted exactly once. */
  lemma {:induction false} AcceptedOnce(states: seq<Sched>, acts: seq<Act>, ref: TaskRef, n: nat)
    requires Run(states, acts) && n < |states| && ref.task < SLICES
    ensures TimesAccepted(states, acts, ref, n) ==
      if ref.query < |states[n].queries| && !IsOpen(states[n], ref) then 1 else 0
  {
    hide Run, Inv, Step, Enabled, Defined;
    RunBegins(states, acts);
    if n > 0 {
      AcceptedOnce(states, acts, ref, n - 1);
      RunInv(states, acts, n - 1);
      StepAt(states, acts, n - 1);
      OpenFollowsStep(states[n - 1], acts[n - 1], ref);
    }
  }

  /** An accepted result names the front of its sender's list, and erasing the front takes that
      task, and nothing else, out of the lists. */
  lemma FrontErasedIsFinished(states: seq<Sched>, acts: seq<Act>, n: nat)
    requires Run(states, acts) && n < |acts| && acts[n].Result? && InProgress(states[n], acts[n].ref)
    ensures var s, s', w, ref := states[n], states[n + 1], acts[n].worker, acts[n].ref;
            && w in s.lists && s.lists[w] != [] && s.lists[w][0] == ref
            && s'.lists == s.lists[w := s.lists[w][1..]]
            && forall r :: Holds(s'.lists, r) <==> Holds(s.lists, r) && r != ref
  {
    var s, w, ref := states[n], acts[n].worker, acts[n].ref;
    RunInv(states, acts, n);
    AcceptedIsFront(s, w, ref);
    FrontErased(s.lists, w);
  }

  // Balance

  /** After a round a worker that was given a task has at most one more than any other. */
  lemma RoundLeavesLoadsLevel(states: seq<Sched>, acts: seq<Act>, n: nat, w: WorkerId, v: WorkerId)
    requires Run(states, acts) && n < |acts| && acts[n].Round?
    requires w in states[n + 1].lists && v in states[n + 1].lists
    ensures w in states[n].lists && |states[n].lists[w]| <= |states[n + 1].lists[w]|
    ensures |states[n].lists[w]| < |states[n + 1].lists[w]| ==>
      |states[n + 1].lists[w]| <= |states[n + 1].lists[v]| + 1
  {
    var s, ws := states[n], acts[n].removed;
    LoadsStayLevel(Without(s.lists, ws), Orphans(s.lists, ws) + AllWaiting(s.queries, |s.queries|));
  }

  // The integral

  /** The queries asked so far, in order. */
  function Asks(acts: seq<Act>): seq<Bounds> {
    if acts == [] then []
    else Asks(acts[..|acts| - 1]) + if acts[|acts| - 1].Ask? then [acts[|acts| - 1].bounds] else []
  }

  lemma {:induction false} AskedIsAsks(states: seq<Sched>, acts: seq<Act>, n: nat)
    requires Run(states, acts) && n < |states|
    ensures states[n].asked == Asks(acts[..n])
  {
    hide Run, Enabled, Defined;
    RunBegins(states, acts);
    if n > 0 {
      AskedIsAsks(states, acts, n - 1);
      StepAt(states, acts, n - 1);
      assert acts[..n][..n - 1] == acts[..n - 1];
      assert Step(states[n - 1], acts[n - 1]).asked ==
             states[n - 1].asked + if acts[n - 1].Ask? then [acts[n - 1].bounds] else [];
    }
  }

  /** The slices lie end to end. */
  lemma {:induction false} SlicesTile(q: Bounds, n: nat)
    ensures DoneSum(q, {}, n) == Exact(2.0, 5.0, q.a, Slice(q, n).a)
  {
    if n > 0 {
      SlicesTile(q, n - 1);
      assert Slice(q, n - 1).b == Slice(q, n).a;
      ExactAdds(2.0, 5.0, q.a, Slice(q, n - 1).a, Slice(q, n).a);
    }
  }

  lemma FirstSliceTells(q: Bounds)
    requires Slice(q, 0).a < Slice(q, 0).b
    ensures q.a < q.b
  {
    assert Slice(q, 0).b == q.a + (q.b - q.a) / SLICES as real;
  }

  lemma AllSlicesAreAll(q: Bounds)
    ensures DoneSum(q, {}, SLICES) == Exact(2.0, 5.0, q.a, q.b)
  {
    hide DoneSum, Exact;
    SlicesTile(q, SLICES);
    assert Slice(q, SLICES).a == q.b;
  }

  /** Once nothing of a query is open its result is the exact integral over what was asked,
      whatever was lost, sent again or answered twice; and this happens only to an interval
      that is not empty. */
  lemma FinishedIsExact(states: seq<Sched>, acts: seq<Act>, n: nat, k: nat)
    requires Run(states, acts) && n < |states| && k < |states[n].queries|
    requires states[n].queries[k].toDo == {} && states[n].queries[k].inProgress == {}
    ensures k < |Asks(acts[..n])| && Asks(acts[..n])[k].a < Asks(acts[..n])[k].b
    ensures states[n].queries[k].result == Exact(2.0, 5.0, Asks(acts[..n])[k].a, Asks(acts[..n])[k].b)
  {
    RunInv(states, acts, n);
    AskedIsAsks(states, acts, n);
    var q, asked := states[n].queries[k], states[n].asked[k];
    assert QueryOk(q, asked) && Open(q) == {};
    FirstSliceTells(asked);
    AllSlicesAreAll(asked);
    hide Slice, Exact, DoneSum, Run;
  }
}
