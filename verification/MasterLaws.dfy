/** What each kind of request, and each start, does to the master, told by its inputs. */
module MasterLaws {
  import opened Common
  import opened Tasks
  import opened MasterModel
  import MI = MasterInvariant

  // ----- get_task -----

  /**
   A request for n tasks gets the first n pending ones, at least one if there is
   one and at most as many as there are. They leave the pending queue, become
   running, and go to the end of the asking worker's list.
   */
  lemma RequestGetsPrefix(m: Master, w: string, n: int, now: int)
    ensures ReplyTo(m, GetTask(w, n)).TaskBatch?
    ensures var tasks, m' := ReplyTo(m, GetTask(w, n)).tasks, Handle(m, GetTask(w, n), now);
            var wanted := if n > 1 then n else 1;
            && |tasks| == (if |m.pending| < wanted then |m.pending| else wanted)
            && tasks == m.pending[..|tasks|] && m'.pending == m.pending[|tasks|..]
            && m'.running == m.running + (set id | id in tasks)
            && m'.lists == m.lists[w := (if w in m.lists then m.lists[w] else []) + tasks]
  {
    var m0 := WithWorker(m, w);
    MI.HandOutTakesPrefix(m0, w, Max(n, 1));
    MI.HandOutRuns(m0, w, Max(n, 1));
    MI.HandOutLists(m0, w, Max(n, 1));
    var tasks := ReplyTo(m, GetTask(w, n)).tasks;
    assert m.pending == tasks + Handle(m, GetTask(w, n), now).pending;
  }

  /** The records of the tasks handed out change in their status alone, and no other record changes. */
  lemma RequestMarksRunning(m: Master, w: string, n: int, now: int, id: int)
    ensures var tasks, items := ReplyTo(m, GetTask(w, n)).tasks, Handle(m, GetTask(w, n), now).items;
            if id in tasks
            then && id in items && items[id].status == Running
                 && items[id].result == (if id in m.items then m.items[id].result else 0)
                 && items[id].timeUsage == (if id in m.items then m.items[id].timeUsage else 0)
            else SameRecord(m.items, items, id)
  {
    HandOutMarks(WithWorker(m, w), w, Max(n, 1), id);
  }

  lemma {:induction false} HandOutMarks(m: Master, w: string, n: nat, id: int)
    ensures var items := HandOut(m, w, n).items;
            if id in MI.Batch(m, n)
            then id in items && items[id] == ItemOf(m.items, id).(status := Running)
            else SameRecord(m.items, items, id)
    decreases n
  {
    if n == 0 || m.pending == [] {
    } else {
      HandOutMarks(HandOutOne(m, w), w, n - 1, id);
      MI.BatchUnfolds(m, w, n);
    }
  }

  /** Asking for tasks, or for nothing known, never ends the computation, and saves nothing. */
  lemma AskingOnlyHandsOut(m: Master, req: Request, now: int)
    requires !req.FinishCompute?
    ensures var m' := Handle(m, req, now);
            && m'.finishes == m.finishes && m'.exiting == m.exiting && m'.received == m.received
            && m'.file == m.file && m'.lastSave == m.lastSave && m'.queue == m.queue
            && (req.OtherRequest? ==> m'.pending == m.pending && m'.running == m.running && m'.items == m.items)
            && req.worker in m'.lists
  {
    var m0 := WithWorker(m, req.worker);
    if req.GetTask? { HandOutKeepsRest(m0, req.worker, Max(req.maxTaskCount, 1)); }
  }

  lemma {:induction false} HandOutKeepsRest(m: Master, w: string, n: nat)
    requires w in m.lists
    ensures var m' := HandOut(m, w, n);
            && m'.finishes == m.finishes && m'.exiting == m.exiting && m'.received == m.received
            && m'.file == m.file && m'.lastSave == m.lastSave && m'.queue == m.queue && w in m'.lists
    decreases n
  {
    if n == 0 || m.pending == [] {
    } else {
      HandOutKeepsRest(HandOutOne(m, w), w, n - 1);
    }
  }

  // ----- finish_compute -----

  ghost predicate FirstNamed(rs: seq<TaskResult>, k: nat, id: int) {
    k < |rs| && rs[k].id == id && forall j :: 0 <= j < k ==> rs[j].id != id
  }

  /** The record that the first result for this task in the report gives it. */
  ghost predicate RecordedFrom(rs: seq<TaskResult>, k: nat, id: int, items: map<int, TaskItem>) {
    FirstNamed(rs, k, id) && id in items && items[id] == TaskItem(Done, rs[k].result, rs[k].timeUsage)
  }

  ghost predicate SameRecord(a: map<int, TaskItem>, b: map<int, TaskItem>, id: int) {
    (id in a <==> id in b) && (id in a ==> a[id] == b[id])
  }

  /** Of several results for a running task the first counts; a task that is not running keeps its record. */
  lemma {:induction false} AcceptAllRecords(m: Master, rs: seq<TaskResult>, id: int)
    ensures var m' := AcceptAll(m, rs);
            if id in m.running && id in IdSet(rs)
            then id !in m'.running && exists k :: RecordedFrom(rs, k, id, m'.items)
            else (id in m'.running <==> id in m.running) && SameRecord(m.items, m'.items, id)
    decreases |rs|
  {
    if rs == [] {
    } else {
      var n := |rs| - 1;
      AcceptAllRecords(m, rs[..n], id);
      MI.IdSetLast(rs);
      var m1, m' := AcceptAll(m, rs[..n]), AcceptAll(m, rs);
      if id in m.running && id in IdSet(rs[..n]) {
        var k :| RecordedFrom(rs[..n], k, id, m1.items);
        assert RecordedFrom(rs, k, id, m'.items);
      } else if id in m.running && rs[n].id == id {
        NamedMeans(rs[..n], id);
        assert forall j :: 0 <= j < n ==> rs[j] == rs[..n][j];
        assert RecordedFrom(rs, n, id, m'.items);
      }
    }
  }

  lemma NamedMeans(rs: seq<TaskResult>, id: int)
    ensures id in IdSet(rs) <==> exists j :: 0 <= j < |rs| && rs[j].id == id
  {
  }

  /** A report stores, for each running task it names, the first result and time it gives; no other record changes. */
  lemma ReportRecords(m: Master, w: string, rs: seq<TaskResult>, now: int, id: int)
    ensures var m' := Handle(m, FinishCompute(w, rs), now);
            if id in m.running && exists k :: 0 <= k < |rs| && rs[k].id == id
            then exists k :: RecordedFrom(rs, k, id, m'.items)
            else SameRecord(m.items, m'.items, id)
  {
    var m0 := WithWorker(m, w);
    AcceptAllRecords(m0, rs, id);
    MI.ReportFields(m0, w, rs, now);
    NamedMeans(rs, id);
  }

  /** Finish is called, with all that has been received, exactly by a report with results that ends the work. */
  lemma ReportFinishesExactly(m: Master, w: string, rs: seq<TaskResult>, now: int)
    ensures var m' := Handle(m, FinishCompute(w, rs), now);
            if rs != [] && m'.pending == [] && m'.running == {}
            then m'.finishes == m.finishes + [m'.received] && m'.exiting
            else m'.finishes == m.finishes && m'.exiting == m.exiting
  {
    AcceptAllKeepsExit(WithWorker(m, w), rs);
    MI.AcceptAllWork(WithWorker(m, w), rs);
  }

  lemma {:induction false} AcceptAllKeepsExit(m: Master, rs: seq<TaskResult>)
    ensures AcceptAll(m, rs).exiting == m.exiting
    decreases |rs|
  {
    if rs == [] {
    } else {
      AcceptAllKeepsExit(m, rs[..|rs|-1]);
    }
  }

  /** The reporter's list keeps its unreported tasks in their order. */
  lemma {:induction false} WithoutInOrder(a: seq<int>, b: seq<int>, removed: set<int>, id: int)
    ensures Without([], removed) == [] && Without([id], removed) == if id in removed then [] else [id]
    ensures Without(a + b, removed) == Without(a, removed) + Without(b, removed)
  {
    assert [id][..0] == [];
    if b == [] {
      assert a + b == a;
    } else {
      assert (a + b)[..|a + b|-1] == a + b[..|b|-1];
      WithoutInOrder(a, b[..|b|-1], removed, id);
    }
  }

  // ----- start -----

  /** Reading a state file goes through the tasks in order: any that is not done becomes pending. */
  lemma {:induction false} PendingInOrder(a: seq<int>, b: seq<int>, items: map<int, TaskItem>, id: int)
    ensures NotDone([], items) == []
    ensures NotDone([id], items) == if id in items && items[id].status == Done then [] else [id]
    ensures NotDone(a + b, items) == NotDone(a, items) + NotDone(b, items)
  {
    assert [id][..0] == [];
    if b == [] {
      assert a + b == a;
    } else {
      assert (a + b)[..|a + b|-1] == a + b[..|b|-1];
      PendingInOrder(a, b[..|b|-1], items, id);
    }
  }

  /** Reading a state file goes through the tasks in order: any that is done is delivered, with its result and time. */
  lemma {:induction false} DeliveredInOrder(a: seq<int>, b: seq<int>, items: map<int, TaskItem>, id: int)
    ensures Cached([], items) == []
    ensures Cached([id], items) ==
            if id in items && items[id].status == Done
            then [TaskResult(id, items[id].result, items[id].timeUsage)] else []
    ensures Cached(a + b, items) == Cached(a, items) + Cached(b, items)
  {
    assert [id][..0] == [];
    if b == [] {
      assert a + b == a;
    } else {
      assert (a + b)[..|a + b|-1] == a + b[..|b|-1];
      DeliveredInOrder(a, b[..|b|-1], items, id);
    }
  }

  /** Without reading the state file, all tasks are pending in order, and the solver has been told nothing. */
  lemma FreshStart(queue: seq<int>, file: Option<Snapshot>)
    ensures var m := Start(queue, file, false);
            && m.queue == queue && m.pending == queue && m.running == {} && m.lists == map[] && m.file == file
            && (forall id :: id in m.items <==> id in queue)
            && (forall id :: id in queue ==> m.items[id] == TaskItem(Pending, 0, 0))
            && m.received == [] && m.finishes == [] && !m.exiting
  {
  }

  /** A start that reads a file takes over exactly the done tasks it holds of the queue, and re-queues the others. */
  lemma StartTakesDone(queue: seq<int>, snap: Snapshot)
    requires NoDup(queue)
    ensures var m := Start(queue, Some(snap), true);
            && m.queue == queue && m.running == {}
            && (forall id :: id in m.items <==> id in queue)
            && (forall id :: id in queue ==>
                  m.items[id] == if id in snap.items && snap.items[id].status == Done
                                 then snap.items[id] else TaskItem(Pending, 0, 0))
            && (forall id :: id in m.pending <==> id in queue && !(id in snap.items && snap.items[id].status == Done))
            && (forall w :: w in m.lists <==> w in snap.lists) && (forall w :: w in m.lists ==> m.lists[w] == [])
            && m.pending == NotDone(queue, snap.items) && m.received == Cached(queue, snap.items)
            && (m.pending == [] <==> m.exiting)
            && m.finishes == if m.pending == [] then [m.received] else []
  {
    MI.LoadQueues(queue, Some(snap), snap);
    var m1 := Load(Fresh(queue, Some(snap)), snap);
    MI.HavingIn(queue, m1.items, Pending);
  }

  /** A start without a file is a fresh one, except that it finishes at once if there is nothing to do. */
  lemma StartWithoutFile(queue: seq<int>)
    ensures var m := Start(queue, None, true);
            if queue == [] then m == Start(queue, None, false).(finishes := [[]], exiting := true)
            else m == Start(queue, None, false)
  {
  }
}
