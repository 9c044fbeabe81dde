/** A round of removal and reassignment moves tasks and loses none. */
module RoundStep {
  import opened Scheduler
  import opened AssignmentLaws
  import opened SchedulerInvariant

  // What waits

  lemma {:induction false} WaitingIsToDo(q: nat, toDo: set<nat>, n: nat)
    ensures forall ref :: ref in Waiting(q, toDo, n) <==> ref.query == q && ref.task in toDo && ref.task < n
    ensures NoRepeats(Waiting(q, toDo, n))
  {
    if n > 0 {
      WaitingIsToDo(q, toDo, n - 1);
      assert Waiting(q, toDo, n) == Waiting(q, toDo, n - 1) + if n - 1 in toDo then [TaskRef(q, n - 1)] else [];
    }
  }

  lemma JoinedHasNoRepeats(front: seq<TaskRef>, back: seq<TaskRef>)
    requires NoRepeats(front) && NoRepeats(back)
    requires forall ref | ref in front :: ref !in back
    ensures NoRepeats(front + back)
  {
    var joined := front + back;
    forall i, j | 0 <= i < j < |joined| ensures joined[i] != joined[j] {
      if i < |front| <= j {
        assert joined[i] in front && joined[j] == back[j - |front|] && joined[j] in back;
      }
    }
  }

  lemma {:induction false} AllWaitingIsToDo(queries: seq<Query>, n: nat)
    requires n <= |queries|
    requires forall k | 0 <= k < n :: queries[k].toDo <= UpTo(|queries[k].allTasks|)
    ensures forall ref :: ref in AllWaiting(queries, n) <==> ref.query < n && ref.task in queries[ref.query].toDo
    ensures NoRepeats(AllWaiting(queries, n))
  {
    if n > 0 {
      AllWaitingIsToDo(queries, n - 1);
      var last := Waiting(n - 1, queries[n - 1].toDo, |queries[n - 1].allTasks|);
      WaitingIsToDo(n - 1, queries[n - 1].toDo, |queries[n - 1].allTasks|);
      JoinedHasNoRepeats(AllWaiting(queries, n - 1), last);
      assert AllWaiting(queries, n) == AllWaiting(queries, n - 1) + last;
    }
  }

  // What the lost workers had

  function Without(lists: map<WorkerId, seq<TaskRef>>, ws: seq<WorkerId>): map<WorkerId, seq<TaskRef>> {
    lists - (set w | w in ws)
  }

  lemma {:induction false} OrphansHaveNoRepeats(lists: map<WorkerId, seq<TaskRef>>, ws: seq<WorkerId>)
    requires Separate(lists) && Ascending(ws) && forall w | w in ws :: w in lists
    ensures NoRepeats(Orphans(lists, ws))
  {
    if ws != [] {
      var k := |ws| - 1;
      OrphansHaveNoRepeats(lists, ws[..k]);
      OrphansKnown(lists, ws[..k]);
      assert ws[k] in lists && NoRepeats(lists[ws[k]]);
      JoinedHasNoRepeats(Orphans(lists, ws[..k]), lists[ws[k]]);
    }
  }

  /** Orphans and kept lists together are what the lists held, and apart. */
  lemma RemovalSplits(lists: map<WorkerId, seq<TaskRef>>, ws: seq<WorkerId>)
    requires Separate(lists) && forall w | w in ws :: w in lists
    ensures Separate(Without(lists, ws))
    ensures forall ref :: Holds(Without(lists, ws), ref) <==> Holds(lists, ref) && ref !in Orphans(lists, ws)
    ensures forall ref | ref in Orphans(lists, ws) :: Holds(lists, ref)
  {
    var left := Without(lists, ws);
    OrphansKnown(lists, ws);
    assert forall w :: w in left <==> w in lists && w !in ws;
    forall ref ensures Holds(left, ref) <==> Holds(lists, ref) && ref !in Orphans(lists, ws) {
      if Holds(lists, ref) {
        var v :| v in lists && ref in lists[v];
        if v !in ws {
          assert v in left && ref in left[v];
        }
      }
    }
  }

  // No worker left

  lemma {:induction false} PutBackMoves(queries: seq<Query>, tasks: seq<TaskRef>, k: nat)
    requires k < |queries| && forall ref | ref in tasks :: ref.query < |queries|
    ensures PutBack(queries, tasks)[k].result == queries[k].result
    ensures PutBack(queries, tasks)[k].allTasks == queries[k].allTasks
    ensures forall i :: i in PutBack(queries, tasks)[k].toDo <==> i in queries[k].toDo || TaskRef(k, i) in tasks
    ensures forall i :: i in PutBack(queries, tasks)[k].inProgress <==>
      i in queries[k].inProgress && TaskRef(k, i) !in tasks
    decreases |tasks|
  {
    if tasks != [] {
      var rest, ref := tasks[..|tasks| - 1], tasks[|tasks| - 1];
      PutBackMoves(queries, rest, k);
      assert tasks == rest + [ref];
      assert forall i :: TaskRef(k, i) in tasks <==> TaskRef(k, i) in rest || (ref.query == k && ref.task == i);
    }
  }

  lemma EmptiedKeepsInv(s: Sched, ws: seq<WorkerId>)
    requires Inv(s) && IsRemoval(s, ws) && Defined(s, Round(ws)) && Without(s.lists, ws).Keys == {}
    ensures Inv(Reschedule(s, ws))
  {
    var s' := Reschedule(s, ws);
    var orphans := Orphans(s.lists, ws);
    OrphansKnown(s.lists, ws);
    RemovalSplits(s.lists, ws);
    forall k | 0 <= k < |s.queries| ensures QueryOk(s'.queries[k], s.asked[k]) && s'.queries[k].inProgress == {} {
      PutBackMoves(s.queries, orphans, k);
      assert QueryOk(s.queries[k], s.asked[k]);
      forall i ensures i in s.queries[k].inProgress <==> TaskRef(k, i) in orphans {
        assert Holds(s.lists, TaskRef(k, i)) <==> InProgress(s, TaskRef(k, i));
        assert !Holds(Without(s.lists, ws), TaskRef(k, i));
      }
      assert Open(s'.queries[k]) == Open(s.queries[k]);
    }
    assert s'.lists == map[];
    assert s'.delivered.Keys == {};
  }

  // Some worker left

  /** With never both sets filled, the swap moves everything into progress. */
  lemma SwapIsMove(q: Query, asked: Bounds)
    requires QueryOk(q, asked)
    ensures Swap(q) == q.(toDo := {}, inProgress := Open(q))
    ensures QueryOk(Swap(q), asked)
  {
    assert Open(Swap(q)) == Open(q);
  }

  lemma SharedOutHolds(s: Sched, ws: seq<WorkerId>)
    requires Inv(s) && IsRemoval(s, ws) && Defined(s, Round(ws)) && Without(s.lists, ws).Keys != {}
    ensures var left, tasks := Without(s.lists, ws), Orphans(s.lists, ws) + AllWaiting(s.queries, |s.queries|);
            && Separate(AssignAll(left, tasks))
            && (forall w | w in left :: left[w] <= AssignAll(left, tasks)[w])
            && forall ref :: Holds(AssignAll(left, tasks), ref) <==>
                 ref.query < |s.queries| && ref.task in Open(s.queries[ref.query])
  {
    var left, orphans, waiting := Without(s.lists, ws), Orphans(s.lists, ws), AllWaiting(s.queries, |s.queries|);
    RemovalSplits(s.lists, ws);
    OrphansHaveNoRepeats(s.lists, ws);
    forall k | 0 <= k < |s.queries| ensures s.queries[k].toDo <= UpTo(|s.queries[k].allTasks|) {
      assert QueryOk(s.queries[k], s.asked[k]);
    }
    AllWaitingIsToDo(s.queries, |s.queries|);
    forall ref | ref in waiting ensures !Holds(s.lists, ref) {
      assert QueryOk(s.queries[ref.query], s.asked[ref.query]);
      assert !InProgress(s, ref);
    }
    JoinedHasNoRepeats(orphans, waiting);
    AssignAllKeeps(left, orphans + waiting);
    forall ref ensures Holds(AssignAll(left, orphans + waiting), ref) <==>
                         ref.query < |s.queries| && ref.task in Open(s.queries[ref.query]) {
      assert Holds(AssignAll(left, orphans + waiting), ref) <==> Holds(s.lists, ref) || ref in waiting;
      assert Holds(s.lists, ref) <==> InProgress(s, ref);
    }
  }

  /** A list that grows at its end keeps its front, so what was sent stays in front. */
  lemma SharedOutKeepsDelivered(s: Sched, ws: seq<WorkerId>)
    requires Inv(s) && IsRemoval(s, ws) && Defined(s, Round(ws)) && Without(s.lists, ws).Keys != {}
    requires var left, tasks := Without(s.lists, ws), Orphans(s.lists, ws) + AllWaiting(s.queries, |s.queries|);
             forall w | w in left :: left[w] <= AssignAll(left, tasks)[w]
    requires forall k | 0 <= k < |s.queries| ::
      Swap(s.queries[k]).toDo == {} && Swap(s.queries[k]).inProgress == Open(s.queries[k])
    ensures DeliveredOk(Reschedule(s, ws))
  {
    var s', left := Reschedule(s, ws), Without(s.lists, ws);
    hide AssignAll, QueriesOk, ListsOk, Orphans, AllWaiting, Swap;
    forall w, ref | w in s'.delivered && ref in s'.delivered[w] ensures SentOk(s', w, ref) {
      assert w in s.delivered && ref in s.delivered[w] && SentOk(s, w, ref);
      assert left[w] == s.lists[w] && left[w] <= s'.lists[w];
    }
  }

  lemma SharedOutKeepsQueries(s: Sched)
    requires QueriesOk(s)
    ensures forall k | 0 <= k < |s.queries| :: QueryOk(Swap(s.queries[k]), s.asked[k])
    ensures forall k | 0 <= k < |s.queries| ::
      Swap(s.queries[k]).toDo == {} && Swap(s.queries[k]).inProgress == Open(s.queries[k])
  {
    forall k | 0 <= k < |s.queries|
      ensures QueryOk(Swap(s.queries[k]), s.asked[k])
      ensures Swap(s.queries[k]).toDo == {} && Swap(s.queries[k]).inProgress == Open(s.queries[k])
    {
      SwapIsMove(s.queries[k], s.asked[k]);
    }
  }

  /** If the lists hold what was open, they hold what is in progress after the swap. */
  lemma SharedOutKeepsLists(s: Sched, s': Sched)
    requires s'.queries == SwapAll(s.queries) && Separate(s'.lists)
    requires forall k | 0 <= k < |s.queries| :: Swap(s.queries[k]).inProgress == Open(s.queries[k])
    requires forall ref :: Holds(s'.lists, ref) <==>
               ref.query < |s.queries| && ref.task in Open(s.queries[ref.query])
    ensures ListsOk(s')
  {
    hide Swap, Separate, Holds, Open;
    forall ref ensures Holds(s'.lists, ref) <==> InProgress(s', ref) {
      if ref.query < |s.queries| {
        assert s'.queries[ref.query] == Swap(s.queries[ref.query]);
      }
    }
  }

  lemma SharedOutKeepsInv(s: Sched, ws: seq<WorkerId>)
    requires Inv(s) && IsRemoval(s, ws) && Defined(s, Round(ws)) && Without(s.lists, ws).Keys != {}
    ensures Inv(Reschedule(s, ws))
  {
    SharedOutKeepsQueries(s);
    SharedOutHolds(s, ws);
    SharedOutKeepsDelivered(s, ws);
    var s' := Reschedule(s, ws);
    hide AssignAll, QueryOk, DeliveredOk, ListsOk, Orphans, AllWaiting, Swap, IsRemoval, Separate, Holds, Open, Without;
    SharedOutKeepsLists(s, s');
    assert QueriesOk(s');
  }

  lemma RoundKeepsInv(s: Sched, ws: seq<WorkerId>)
    requires Inv(s) && IsRemoval(s, ws) && Defined(s, Round(ws))
    ensures Inv(Reschedule(s, ws))
  {
    if Without(s.lists, ws).Keys == {} {
      EmptiedKeepsInv(s, ws);
    } else {
      SharedOutKeepsInv(s, ws);
    }
  }

  // What a round does to workers and tasks

  /** A lost worker is gone and every other stays, with all it had in front. */
  lemma RoundKeepsOthers(s: Sched, ws: seq<WorkerId>)
    requires Inv(s) && IsRemoval(s, ws) && Defined(s, Round(ws))
    ensures var s' := Reschedule(s, ws);
            && s'.lists.Keys == s.lists.Keys - s.toDelete
            && forall w | w in s'.lists :: w in s.lists && s.lists[w] <= s'.lists[w]
  {
    var left := Without(s.lists, ws);
    OrphansKnown(s.lists, ws);
    assert left.Keys == s.lists.Keys - s.toDelete;
    if left.Keys != {} {
      SharedOutHolds(s, ws);
    }
  }

  /** Every open task is in some worker's list after the round, or to do again if no worker is left. */
  lemma RoundKeepsTasks(s: Sched, ws: seq<WorkerId>, ref: TaskRef)
    requires Inv(s) && IsRemoval(s, ws) && Defined(s, Round(ws))
    requires ref.query < |s.queries| && ref.task in Open(s.queries[ref.query])
    ensures var s' := Reschedule(s, ws);
            && ref.query < |s'.queries|
            && (s'.lists.Keys != {} ==> Holds(s'.lists, ref))
            && (s'.lists.Keys == {} ==> ref.task in s'.queries[ref.query].toDo)
  {
    var left := Without(s.lists, ws);
    OrphansKnown(s.lists, ws);
    if left.Keys == {} {
      RemovalSplits(s.lists, ws);
      PutBackMoves(s.queries, Orphans(s.lists, ws), ref.query);
      assert Holds(s.lists, ref) <==> InProgress(s, ref);
      assert !Holds(left, ref);
      assert ref == TaskRef(ref.query, ref.task);
    } else {
      SharedOutHolds(s, ws);
    }
  }
}
