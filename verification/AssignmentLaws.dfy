/** Handing tasks to the least loaded worker loses none, doubles none and keeps loads level. */
module AssignmentLaws {
  import opened Scheduler

  predicate NoRepeats(tasks: seq<TaskRef>) {
    forall i, j | 0 <= i < j < |tasks| :: tasks[i] != tasks[j]
  }

  /** No task is twice in a list or in two lists. */
  ghost predicate Separate(lists: map<WorkerId, seq<TaskRef>>) {
    && (forall w | w in lists :: NoRepeats(lists[w]))
    && (forall w, v, ref | w in lists && v in lists && ref in lists[w] && ref in lists[v] :: w == v)
  }

  ghost predicate Holds(lists: map<WorkerId, seq<TaskRef>>, ref: TaskRef) {
    exists w | w in lists :: ref in lists[w]
  }

  lemma AssignOne(lists: map<WorkerId, seq<TaskRef>>, w: WorkerId, ref: TaskRef)
    requires Separate(lists) && w in lists && !Holds(lists, ref)
    ensures Separate(AssignTo(lists, w, ref))
    ensures forall r :: Holds(AssignTo(lists, w, ref), r) <==> Holds(lists, r) || r == ref
  {
    var lists' := AssignTo(lists, w, ref);
    assert forall v, r | v in lists :: r in lists'[v] <==> r in lists[v] || (v == w && r == ref);
    forall r ensures Holds(lists', r) <==> Holds(lists, r) || r == ref {
      if Holds(lists, r) {
        var v :| v in lists && r in lists[v];
        assert v in lists' && r in lists'[v];
      }
      if r == ref {
        assert w in lists' && r in lists'[w];
      }
    }
    assert NoRepeats(lists'[w]) by {
      assert NoRepeats(lists[w]);
      assert forall i | 0 <= i < |lists[w]| :: lists[w][i] in lists[w];
    }
  }

  /** The workers then hold what they held and exactly the new tasks, each once. */
  lemma {:induction false} AssignAllKeeps(lists: map<WorkerId, seq<TaskRef>>, tasks: seq<TaskRef>)
    requires lists.Keys != {} && Separate(lists) && NoRepeats(tasks)
    requires forall ref | ref in tasks :: !Holds(lists, ref)
    ensures Separate(AssignAll(lists, tasks))
    ensures forall ref :: Holds(AssignAll(lists, tasks), ref) <==> Holds(lists, ref) || ref in tasks
    ensures forall w | w in lists :: lists[w] <= AssignAll(lists, tasks)[w]
    decreases |tasks|
  {
    if tasks != [] {
      var k := |tasks| - 1;
      assert tasks == tasks[..k] + [tasks[k]];
      AssignAllKeeps(lists, tasks[..k]);
      AssignOne(AssignAll(lists, tasks[..k]), Least(AssignAll(lists, tasks[..k])), tasks[k]);
    }
  }

  /** A worker that was given a task ends at most one above the least loaded one. */
  lemma {:induction false} LoadsStayLevel(lists: map<WorkerId, seq<TaskRef>>, tasks: seq<TaskRef>)
    requires lists.Keys != {}
    ensures forall w | w in lists :: |lists[w]| <= |AssignAll(lists, tasks)[w]|
    ensures forall w, v | w in lists && v in lists ::
      |AssignAll(lists, tasks)[w]| > |lists[w]| ==> |AssignAll(lists, tasks)[w]| <= |AssignAll(lists, tasks)[v]| + 1
    decreases |tasks|
  {
    if tasks != [] {
      LoadsStayLevel(lists, tasks[..|tasks| - 1]);
    }
  }

  // The order in which tasks are handed out

  /** Earlier queries first, and of one query the smaller id first. */
  predicate InOrder(tasks: seq<TaskRef>) {
    forall i, j | 0 <= i < j < |tasks| ::
      tasks[i].query < tasks[j].query || (tasks[i].query == tasks[j].query && tasks[i].task < tasks[j].task)
  }

  lemma {:induction false} WaitingInOrder(q: nat, toDo: set<nat>, n: nat)
    ensures InOrder(Waiting(q, toDo, n)) && forall ref | ref in Waiting(q, toDo, n) :: ref.query == q && ref.task < n
  {
    if n > 0 {
      WaitingInOrder(q, toDo, n - 1);
      var before := Waiting(q, toDo, n - 1);
      assert forall i | 0 <= i < |before| :: before[i] in before;
    }
  }

  /** What waits is handed out in that order. */
  lemma {:induction false} AllWaitingInOrder(queries: seq<Query>, n: nat)
    requires n <= |queries|
    ensures InOrder(AllWaiting(queries, n)) && forall ref | ref in AllWaiting(queries, n) :: ref.query < n
  {
    if n > 0 {
      AllWaitingInOrder(queries, n - 1);
      WaitingInOrder(n - 1, queries[n - 1].toDo, |queries[n - 1].allTasks|);
      var front, back := AllWaiting(queries, n - 1), Waiting(n - 1, queries[n - 1].toDo, |queries[n - 1].allTasks|);
      assert forall i | 0 <= i < |front| :: front[i] in front;
      assert forall i | 0 <= i < |back| :: back[i] in back;
      assert AllWaiting(queries, n) == front + back;
      hide Waiting, AllWaiting;
    }
  }

  /** What removed workers had is taken over worker by worker, each list in its own order. */
  lemma {:induction false} OrphansFollow(lists: map<WorkerId, seq<TaskRef>>, w: WorkerId, ws: seq<WorkerId>)
    requires w in lists && forall v | v in ws :: v in lists
    ensures Orphans(lists, [w] + ws) == lists[w] + Orphans(lists, ws)
  {
    var all := [w] + ws;
    var k := |all| - 1;
    if ws == [] {
      assert all[..k] == [];
    } else {
      assert all[..k] == [w] + ws[..|ws| - 1] && all[k] == ws[|ws| - 1];
      OrphansFollow(lists, w, ws[..|ws| - 1]);
    }
  }
}
