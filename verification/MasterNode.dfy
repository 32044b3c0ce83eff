/** The master node object: its handlers, loop by loop, against the value model. */
module MasterNode {
  import opened Common
  import opened Tasks
  import opened MasterModel

  class MasterNode {
    var taskQueue: seq<int>
    var taskPendingQueue: seq<int>
    var taskRunningQueue: set<int>
    var taskMap: map<int, TaskItem>
    var workerMap: map<string, seq<int>>
    var lastSaveTime: int
    var stateFile: Option<Snapshot>
    var received: seq<TaskResult>
    var finishes: seq<seq<TaskResult>>
    var exiting: bool

    ghost function State(): Master
      reads this
    {
      Master(taskQueue, taskPendingQueue, taskRunningQueue, taskMap, workerMap, lastSaveTime,
             stateFile, received, finishes, exiting)
    }

    constructor (file: Option<Snapshot>)
      ensures State() == Master([], [], {}, map[], map[], 0, file, [], [], false)
    {
      taskQueue, taskPendingQueue, taskRunningQueue := [], [], {};
      taskMap, workerMap, lastSaveTime, stateFile := map[], map[], 0, file;
      received, finishes, exiting := [], [], false;
    }

    /** Start, for the tasks the solver generates. */
    method Start(tasks: seq<int>, readState: bool)
      requires State() == Master([], [], {}, map[], map[], 0, stateFile, [], [], false)
      modifies this
      ensures State() == MasterModel.Start(tasks, old(stateFile), readState)
    {
      taskQueue := tasks;
      taskMap, taskPendingQueue := EnqueueAll(tasks);
      if readState {
        LoadState();
        if taskPendingQueue == [] && taskRunningQueue == {} {
          finishes := finishes + [received];
          exiting := true;
        }
      }
    }

    /** LoadState: a missing or unreadable file leaves the fresh state. */
    method LoadState()
      requires State() == Fresh(taskQueue, stateFile)
      modifies this
      ensures State() == match old(stateFile)
                         case Some(snap) => Load(old(State()), snap)
                         case None => old(State())
    {
      if stateFile.None? { return; }
      var snap := stateFile.value;
      var cached, newPending, newItems := ScanCache(taskQueue, snap.items, taskMap);
      taskMap := newItems;
      workerMap := workerMap + map w | w in snap.lists :: [];
      received := received + cached;
      taskPendingQueue := newPending;
    }

    method SaveState(forceSave: bool, now: int)
      modifies this
      ensures State() == Save(old(State()), forceSave, now)
    {
      if forceSave || lastSaveTime == 0 || InMinutes(now - lastSaveTime) > 3 {
        stateFile := Some(Snapshot(taskMap, workerMap));
        lastSaveTime := now;
      }
    }

    method GetWorker(w: string)
      modifies this
      ensures State() == WithWorker(old(State()), w)
    {
      if w !in workerMap {
        workerMap := workerMap[w := []];
      }
      assert workerMap[w := ListOf(workerMap, w)] == workerMap;
    }

    method HandleRequest(req: Request, now: int) returns (reply: Reply)
      modifies this
      ensures State() == Handle(old(State()), req, now)
      ensures reply == ReplyTo(old(State()), req)
    {
      GetWorker(req.worker);
      match req
      case GetTask(w, n) =>
        var tasks := HandOutTasks(w, if n > 1 then n else 1);
        reply := TaskBatch(tasks);
      case FinishCompute(w, rs) =>
        AcceptResults(w, rs, now);
        reply := Acknowledged;
      case OtherRequest(_) =>
        reply := Unhandled;
    }

    method HandOutTasks(w: string, maxTaskCount: nat) returns (tasks: seq<int>)
      modifies this
      ensures State() == HandOut(old(State()), w, maxTaskCount)
      ensures tasks == old(taskPendingQueue)[..Min(maxTaskCount, |old(taskPendingQueue)|)]
    {
      var added := 0;
      tasks := [];
      ghost var m, all := State(), taskPendingQueue;
      while taskPendingQueue != [] && added < maxTaskCount
        invariant added == |tasks| <= maxTaskCount
        invariant State() == m && all == tasks + m.pending
        invariant HandOut(m, w, maxTaskCount - added) == HandOut(old(State()), w, maxTaskCount)
        decreases maxTaskCount - added
      {
        HandOutUnfolds(m, w, maxTaskCount - added);
        PendingSplits(all, tasks, m.pending);
        m := HandOutOne(m, w);
        var taskId := HandOutNext(w);
        tasks := tasks + [taskId];
        added := added + 1;
      }
    }

    method HandOutNext(w: string) returns (taskId: int)
      requires taskPendingQueue != []
      modifies this
      ensures taskId == old(taskPendingQueue)[0]
      ensures State() == HandOutOne(old(State()), w)
    {
      taskId := taskPendingQueue[0];
      taskPendingQueue := taskPendingQueue[1..];
      taskRunningQueue := taskRunningQueue + {taskId};
      workerMap := workerMap[w := ListOf(workerMap, w) + [taskId]];
      taskMap := taskMap[taskId := ItemOf(taskMap, taskId).(status := Running)];
    }

    /** The first loop over a report: running tasks become done, and their results are collected. */
    method AcceptEach(rs: seq<TaskResult>) returns (removed: set<int>, accepted: seq<TaskResult>)
      modifies `taskMap, `taskRunningQueue
      ensures removed == IdSet(rs)
      ensures State().(received := received + accepted) == AcceptAll(old(State()), rs)
    {
      removed, accepted := {}, [];
      assert received + accepted == received;
      for n := 0 to |rs|
        invariant removed == IdSet(rs[..n])
        invariant State().(received := received + accepted) == AcceptAll(old(State()), rs[..n])
      {
        var r := rs[n];
        assert rs[..n+1] == rs[..n] + [r] && rs[..n+1][..n] == rs[..n];
        removed := removed + {r.id};
        assert removed == IdSet(rs[..n+1]);
        if r.id in taskRunningQueue {
          taskMap := taskMap[r.id := TaskItem(Done, r.result, r.timeUsage)];
          taskRunningQueue := taskRunningQueue - {r.id};
          assert received + (accepted + [r]) == received + accepted + [r];
          accepted := accepted + [r];
        }
      }
      assert rs[..|rs|] == rs;
    }

    method ConcludeReport(now: int)
      modifies this
      ensures State() == Conclude(old(State()), now)
    {
      if taskPendingQueue == [] && taskRunningQueue == {} {
        SaveState(true, now);
        finishes := finishes + [received];
        exiting := true;
      } else {
        SaveState(false, now);
      }
    }

    method AcceptResults(w: string, rs: seq<TaskResult>, now: int)
      requires w in workerMap
      modifies this
      ensures State() == Reported(old(State()), w, rs, now)
    {
      var removed, accepted := AcceptEach(rs);
      var newRunning := Filter(workerMap[w], removed);
      workerMap := workerMap[w := newRunning];
      if |rs| > 0 {
        received := received + accepted;
        ConcludeReport(now);
      }
    }
  }

  lemma PendingSplits(all: seq<int>, tasks: seq<int>, pending: seq<int>)
    requires all == tasks + pending && pending != []
    ensures all == tasks + [pending[0]] + pending[1..]
  {
  }

  /** The loop of Start over the generated tasks. */
  method EnqueueAll(tasks: seq<int>) returns (items: map<int, TaskItem>, pending: seq<int>)
    ensures items == map id | id in tasks :: FRESH_ITEM
    ensures pending == tasks
  {
    items, pending := map[], [];
    for n := 0 to |tasks|
      invariant pending == tasks[..n]
      invariant items == map id | id in tasks[..n] :: FRESH_ITEM
    {
      assert tasks[..n+1] == tasks[..n] + [tasks[n]];
      items := items[tasks[n] := FRESH_ITEM];
      pending := pending + [tasks[n]];
    }
    assert tasks[..|tasks|] == tasks;
  }

  /** The loop of LoadState over the task queue. */
  method ScanCache(queue: seq<int>, saved: map<int, TaskItem>, items: map<int, TaskItem>)
      returns (cached: seq<TaskResult>, pending: seq<int>, newItems: map<int, TaskItem>)
    requires forall id :: id in queue ==> id in items
    ensures cached == Cached(queue, saved) && pending == NotDone(queue, saved)
    ensures newItems == map id | id in items :: if id in queue && DoneIn(saved, id) then saved[id] else items[id]
  {
    cached, pending, newItems := [], [], items;
    for n := 0 to |queue|
      invariant cached == Cached(queue[..n], saved) && pending == NotDone(queue[..n], saved)
      invariant Merged(queue[..n], saved, items, newItems)
    {
      var id := queue[n];
      ScanUnfolds(queue, n, saved);
      MergeOne(queue[..n], id, saved, items, newItems);
      if id in saved && saved[id].status == Done {
        cached := cached + [TaskResult(id, saved[id].result, saved[id].timeUsage)];
        newItems := newItems[id := saved[id]];
      } else {
        pending := pending + [id];
      }
    }
    assert queue[..|queue|] == queue;
    ghost var merged := map id | id in items :: if id in queue && DoneIn(saved, id) then saved[id] else items[id];
    assert newItems.Keys == merged.Keys;
    assert forall id :: id in merged ==> newItems[id] == merged[id];
  }

  /** The table after the tasks of `seen` have been looked up. */
  ghost predicate Merged(seen: seq<int>, saved: map<int, TaskItem>, items: map<int, TaskItem>,
                         now: map<int, TaskItem>) {
    && now.Keys == items.Keys
    && forall id :: id in items ==> now[id] == if id in seen && DoneIn(saved, id) then saved[id] else items[id]
  }

  lemma MergeOne(seen: seq<int>, id: int, saved: map<int, TaskItem>, items: map<int, TaskItem>, now: map<int, TaskItem>)
    requires Merged(seen, saved, items, now) && id in items
    ensures Merged(seen + [id], saved, items, if DoneIn(saved, id) then now[id := saved[id]] else now)
  {
  }

  lemma ScanUnfolds(queue: seq<int>, n: nat, saved: map<int, TaskItem>)
    requires n < |queue|
    ensures queue[..n+1] == queue[..n] + [queue[n]]
    ensures NotDone(queue[..n+1], saved) ==
            NotDone(queue[..n], saved) + if DoneIn(saved, queue[n]) then [] else [queue[n]]
    ensures Cached(queue[..n+1], saved) ==
            Cached(queue[..n], saved) +
            if DoneIn(saved, queue[n])
            then [TaskResult(queue[n], saved[queue[n]].result, saved[queue[n]].timeUsage)] else []
  {
    assert queue[..n+1][..n] == queue[..n];
  }

  method Filter(ids: seq<int>, removed: set<int>) returns (kept: seq<int>)
    ensures kept == Without(ids, removed)
  {
    kept := [];
    for n := 0 to |ids|
      invariant kept == Without(ids[..n], removed)
    {
      assert ids[..n+1] == ids[..n] + [ids[n]] && ids[..n+1][..n] == ids[..n];
      if ids[n] !in removed {
        kept := kept + [ids[n]];
      }
    }
    assert ids[..|ids|] == ids;
  }
}
