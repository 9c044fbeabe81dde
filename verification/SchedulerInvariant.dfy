/** Every task is in exactly one place, and its result is added exactly once. */
module SchedulerInvariant {
  import opened Integral
  import opened Scheduler
  import opened AssignmentLaws

  predicate InProgress(s: Sched, ref: TaskRef) {
    ref.query < |s.queries| && ref.task in s.queries[ref.query].inProgress
  }

  function SliceValue(q: Bounds, i: nat): real {
    Exact(2.0, 5.0, Slice(q, i).a, Slice(q, i).b)
  }

  /** The exact integral over those of the first `n` slices that are not open. */
  function DoneSum(q: Bounds, open: set<nat>, n: nat): real {
    if n == 0 then 0.0
    else DoneSum(q, open, n - 1) + if n - 1 in open then 0.0 else SliceValue(q, n - 1)
  }

  function Open(q: Query): set<nat> { q.toDo + q.inProgress }

  ghost predicate QueryOk(q: Query, asked: Bounds) {
    && q.allTasks == Slices(asked)
    && Open(q) <= UpTo(SLICES)
    && (q.toDo == {} || q.inProgress == {})
    && q.result == DoneSum(asked, Open(q), SLICES)
    && forall i: nat | i < SLICES && i !in Open(q) :: Slice(asked, i).a < Slice(asked, i).b
  }

  ghost predicate QueriesOk(s: Sched) {
    |s.queries| == |s.asked| && forall k | 0 <= k < |s.queries| :: QueryOk(s.queries[k], s.asked[k])
  }

  /** The tasks in progress are exactly those in the workers' lists, each in one place. */
  ghost predicate ListsOk(s: Sched) {
    Separate(s.lists) && forall ref :: Holds(s.lists, ref) <==> InProgress(s, ref)
  }

  /** What was sent to a worker and is not done is the front of its list. */
  ghost predicate DeliveredOk(s: Sched) {
    && s.delivered.Keys == s.lists.Keys
    && forall w, ref | w in s.delivered && ref in s.delivered[w] :: SentOk(s, w, ref)
  }

  predicate SentOk(s: Sched, w: WorkerId, ref: TaskRef)
    requires w in s.lists
  {
    && ref.query < |s.queries| && ref.task < SLICES && ref.task !in s.queries[ref.query].toDo
    && (InProgress(s, ref) ==> s.lists[w] != [] && s.lists[w][0] == ref)
  }

  ghost predicate Inv(s: Sched) {
    QueriesOk(s) && ListsOk(s) && DeliveredOk(s)
  }

  // New queries and workers

  lemma {:induction false} NothingDone(q: Bounds, open: set<nat>, n: nat)
    requires forall i: nat | i < n :: i in open
    ensures DoneSum(q, open, n) == 0.0
  {
    if n > 0 {
      NothingDone(q, open, n - 1);
    }
  }

  lemma AskKeepsInv(s: Sched, q: Bounds)
    requires Inv(s)
    ensures Inv(AddQuery(s, q))
  {
    var s' := AddQuery(s, q);
    NothingDone(q, UpTo(SLICES), SLICES);
    assert QueryOk(NewQuery(q), q) by {
      assert Open(NewQuery(q)) == UpTo(SLICES);
    }
    forall ref ensures InProgress(s', ref) <==> InProgress(s, ref) {
    }
    forall w, ref | w in s'.delivered && ref in s'.delivered[w] ensures SentOk(s', w, ref) {
      assert SentOk(s, w, ref);
    }
  }

  lemma JoinKeepsInv(s: Sched, w: WorkerId)
    requires Inv(s)
    ensures Inv(AddWorker(s, w))
  {
    var s' := AddWorker(s, w);
    if w !in s.lists {
      forall ref ensures Holds(s'.lists, ref) <==> Holds(s.lists, ref) {
        if Holds(s.lists, ref) {
          var v :| v in s.lists && ref in s.lists[v];
          assert v in s'.lists && ref in s'.lists[v];
        }
      }
      forall v, ref | v in s'.delivered && ref in s'.delivered[v] ensures SentOk(s', v, ref) {
        assert SentOk(s, v, ref);
      }
    }
  }

  lemma LoseKeepsInv(s: Sched, w: WorkerId)
    requires Inv(s)
    ensures Inv(LoseWorker(s, w))
  {
    var s' := LoseWorker(s, w);
    assert forall v, ref | v in s.delivered && ref in s.delivered[v] :: SentOk(s, v, ref) ==> SentOk(s', v, ref);
    assert forall ref :: InProgress(s', ref) <==> InProgress(s, ref);
  }

  lemma DispatchKeepsInv(s: Sched, w: WorkerId)
    requires Inv(s) && w in s.lists && w in s.delivered
    ensures Inv(Send(s, w))
  {
    var s' := Send(s, w);
    assert forall ref :: InProgress(s', ref) <==> InProgress(s, ref);
    if s.lists[w] != [] {
      var front := s.lists[w][0];
      assert Holds(s.lists, front);
      assert InProgress(s, front);
      assert QueryOk(s.queries[front.query], s.asked[front.query]);
      forall v, ref | v in s'.delivered && ref in s'.delivered[v] ensures SentOk(s', v, ref) {
        if ref in s.delivered[v] {
          assert SentOk(s, v, ref);
        }
      }
    }
  }

  // Results

  /** Erasing the front blindly is right: a result that is accepted is about the front. */
  lemma AcceptedIsFront(s: Sched, w: WorkerId, ref: TaskRef)
    requires Inv(s) && w in s.lists && w in s.delivered && ref in s.delivered[w] && InProgress(s, ref)
    ensures s.lists[w] != [] && s.lists[w][0] == ref
  {
    assert SentOk(s, w, ref);
  }

  lemma {:induction false} OneMoreDone(q: Bounds, open: set<nat>, i: nat, n: nat)
    requires i in open
    ensures DoneSum(q, open - {i}, n) == DoneSum(q, open, n) + if i < n then SliceValue(q, i) else 0.0
  {
    if n > 0 {
      OneMoreDone(q, open, i, n - 1);
    }
  }

  lemma ResultKeepsQuery(q: Query, asked: Bounds, i: nat, value: real)
    requires QueryOk(q, asked) && i in q.inProgress && i < SLICES && IsReply(Slice(asked, i), value)
    ensures QueryOk(q.(result := q.result + value, inProgress := q.inProgress - {i}), asked)
  {
    var q' := q.(result := q.result + value, inProgress := q.inProgress - {i});
    assert Open(q') == Open(q) - {i};
    OneMoreDone(asked, Open(q), i, SLICES);
    MidpointIsExact(2.0, 5.0, Slice(asked, i).a, Slice(asked, i).b, POINTS);
  }

  /** Without its front a list loses that one task. */
  lemma FrontErased(lists: map<WorkerId, seq<TaskRef>>, w: WorkerId)
    requires Separate(lists) && w in lists && lists[w] != []
    ensures var lists' := lists[w := lists[w][1..]];
            Separate(lists') && forall ref :: Holds(lists', ref) <==> Holds(lists, ref) && ref != lists[w][0]
  {
    var lists' := lists[w := lists[w][1..]];
    var front := lists[w][0];
    assert NoRepeats(lists[w]);
    assert front in lists[w];
    assert forall ref :: ref in lists[w] <==> ref == front || ref in lists[w][1..];
    forall ref ensures Holds(lists', ref) <==> Holds(lists, ref) && ref != front {
      if Holds(lists, ref) && ref != front {
        var v :| v in lists && ref in lists[v];
        assert v in lists' && ref in lists'[v];
      }
      if Holds(lists', ref) {
        var v :| v in lists' && ref in lists'[v];
        assert v in lists && ref in lists[v];
      }
    }
  }

  lemma ResultKeepsInv(s: Sched, w: WorkerId, ref: TaskRef, value: real)
    requires Inv(s) && Enabled(s, Result(w, ref, value)) && Defined(s, Result(w, ref, value))
    ensures Inv(Receive(s, w, ref, value))
  {
    if InProgress(s, ref) {
      var s' := Receive(s, w, ref, value);
      AcceptedIsFront(s, w, ref);
      FrontErased(s.lists, w);
      assert QueryOk(s.queries[ref.query], s.asked[ref.query]);
      ResultKeepsQuery(s.queries[ref.query], s.asked[ref.query], ref.task, value);
      assert QueriesOk(s');
      forall r ensures InProgress(s', r) <==> InProgress(s, r) && r != ref {
      }
      ResultKeepsDelivered(s, w, ref, value);
    }
  }

  lemma ResultKeepsDelivered(s: Sched, w: WorkerId, ref: TaskRef, value: real)
    requires Inv(s) && Enabled(s, Result(w, ref, value)) && InProgress(s, ref)
    requires s.lists[w] != [] && s.lists[w][0] == ref
    ensures DeliveredOk(Receive(s, w, ref, value))
  {
    var s' := Receive(s, w, ref, value);
    forall v, r | v in s'.delivered && r in s'.delivered[v] ensures SentOk(s', v, r) {
      assert SentOk(s, v, r);
    }
  }
}
