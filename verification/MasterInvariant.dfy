/** What every request and every start keeps true of the master. */
module MasterInvariant {
  import opened Common
  import opened Tasks
  import opened MasterModel

  /** The ids of `queue` with the given status, in queue order. */
  function Having(queue: seq<int>, items: map<int, TaskItem>, st: Status): seq<int> {
    if queue == [] then []
    else
      var id := queue[|queue|-1];
      Having(queue[..|queue|-1], items, st) + if id in items && items[id].status == st then [id] else []
  }

  /** The three queues are exactly what the task table says, so they partition the task ids. */
  ghost predicate QueuesAgree(m: Master) {
    && NoDup(m.queue)
    && (forall id :: id in m.items <==> id in m.queue)
    && m.pending == Having(m.queue, m.items, Pending)
    && (forall id :: id in m.running <==> id in m.items && m.items[id].status == Running)
  }

  /** The solver has been given exactly the done tasks, once each, with the stored true results. */
  ghost predicate SolverAgrees(m: Master, compute: int -> int) {
    && NoDup(Ids(m.received))
    && (forall id :: id in Ids(m.received) <==> DoneIn(m.items, id))
    && (forall k :: 0 <= k < |m.received| ==>
          var r := m.received[k];
          && DoneIn(m.items, r.id)
          && m.items[r.id].result == r.result == compute(r.id) && m.items[r.id].timeUsage == r.timeUsage)
  }

  /** No id is listed twice, listed ids have been handed out, and every running id is listed. */
  ghost predicate ListsAgree(m: Master) {
    && (forall w :: w in m.lists ==> NoDup(m.lists[w]))
    && (forall v, w, id :: v in m.lists && w in m.lists && id in m.lists[v] && id in m.lists[w] ==> v == w)
    && (forall w, id :: w in m.lists && id in m.lists[w] ==> id in m.items && m.items[id].status != Pending)
    && (forall id :: id in m.running ==> exists w :: w in m.lists && id in m.lists[w])
  }

  ghost predicate TrueSnapshot(s: Snapshot, compute: int -> int) {
    forall id :: DoneIn(s.items, id) ==> s.items[id].result == compute(id)
  }

  ghost predicate Inv(m: Master, compute: int -> int) {
    && QueuesAgree(m)
    && SolverAgrees(m, compute)
    && ListsAgree(m)
    && (m.file.Some? ==> TrueSnapshot(m.file.value, compute))
    && (forall c :: c in m.finishes ==> Exact(m.queue, compute, c))
  }

  // ----- filtering the queue -----

  lemma {:induction false} HavingIn(queue: seq<int>, items: map<int, TaskItem>, st: Status)
    ensures forall id :: id in Having(queue, items, st) <==> id in queue && id in items && items[id].status == st
    ensures NoDup(queue) ==> NoDup(Having(queue, items, st))
  {
    if queue == [] {
    } else {
      HavingIn(queue[..|queue|-1], items, st);
      assert queue == queue[..|queue|-1] + [queue[|queue|-1]];
    }
  }

  /** Changing one record that neither had nor gets the status leaves the filtered queue alone. */
  lemma {:induction false} HavingUnchanged(queue: seq<int>, items: map<int, TaskItem>, st: Status, x: int, v: TaskItem)
    requires x in queue ==> x in items && items[x].status != st && v.status != st
    ensures Having(queue, items[x := v], st) == Having(queue, items, st)
  {
    if queue == [] {
    } else {
      HavingUnchanged(queue[..|queue|-1], items, st, x, v);
    }
  }

  /** Taking the status away from the first task that has it drops just that task. */
  lemma {:induction false} HavingDropFirst(queue: seq<int>, items: map<int, TaskItem>, st: Status, v: TaskItem)
    requires NoDup(queue) && Having(queue, items, st) != [] && v.status != st
    ensures Having(queue, items[Having(queue, items, st)[0] := v], st) == Having(queue, items, st)[1..]
  {
    var r, id := queue[..|queue|-1], queue[|queue|-1];
    var h := Having(r, items, st);
    var x := Having(queue, items, st)[0];
    HavingIn(r, items, st);
    if h == [] {
      assert x == id && Having(queue, items, st) == [id];
      HavingUnchanged(r, items, st, x, v);
    } else {
      assert x == h[0] && x in r;
      var k :| 0 <= k < |r| && r[k] == x;
      assert queue[k] == x && x != id;
      HavingDropFirst(r, items, st, v);
    }
  }

  // ----- get_task -----

  lemma PendingHead(m: Master)
    requires QueuesAgree(m) && m.pending != []
    ensures m.pending[0] in m.items && m.items[m.pending[0]].status == Pending && m.pending[0] !in m.running
  {
    HavingIn(m.queue, m.items, Pending);
    assert m.pending[0] in m.pending;
  }

  lemma HandOutOneQueues(m: Master, w: string)
    requires QueuesAgree(m) && m.pending != []
    ensures QueuesAgree(HandOutOne(m, w))
  {
    PendingHead(m);
    HavingDropFirst(m.queue, m.items, Pending, HandOutOne(m, w).items[m.pending[0]]);
  }

  lemma HandOutOneLists(m: Master, w: string)
    requires QueuesAgree(m) && ListsAgree(m) && m.pending != []
    ensures ListsAgree(HandOutOne(m, w))
  {
    PendingHead(m);
    var m', id := HandOutOne(m, w), m.pending[0];
    assert forall v :: v in m.lists ==> id !in m.lists[v];
    forall x | x in m'.running ensures exists v :: v in m'.lists && x in m'.lists[v] {
      if x == id {
        assert w in m'.lists && x in m'.lists[w];
      } else {
        var v :| v in m.lists && x in m.lists[v];
        assert v in m'.lists && x in m'.lists[v];
      }
    }
  }

  lemma HandOutOneKeeps(m: Master, w: string, compute: int -> int)
    requires Inv(m, compute) && m.pending != []
    ensures Inv(HandOutOne(m, w), compute)
  {
    PendingHead(m);
    HandOutOneQueues(m, w);
    HandOutOneLists(m, w);
    assert forall id :: DoneIn(HandOutOne(m, w).items, id) <==> DoneIn(m.items, id);
  }

  lemma {:induction false} HandOutKeeps(m: Master, w: string, n: nat, compute: int -> int)
    requires Inv(m, compute)
    ensures Inv(HandOut(m, w, n), compute)
    decreases n
  {
    if n == 0 || m.pending == [] {
    } else {
      HandOutOneKeeps(m, w, compute);
      HandOutKeeps(HandOutOne(m, w), w, n - 1, compute);
    }
  }

  // ----- finish_compute -----

  lemma AcceptOneKeeps(m: Master, r: TaskResult, compute: int -> int)
    requires Inv(m, compute) && r.result == compute(r.id)
    ensures Inv(AcceptOne(m, r), compute)
  {
    if r.id in m.running {
      var m' := AcceptOne(m, r);
      HavingUnchanged(m.queue, m.items, Pending, r.id, m'.items[r.id]);
      assert QueuesAgree(m');
      assert Ids(m'.received) == Ids(m.received) + [r.id];
      assert SolverAgrees(m', compute);
      assert ListsAgree(m');
    }
  }

  lemma IdSetLast(rs: seq<TaskResult>)
    requires rs != []
    ensures IdSet(rs) == IdSet(rs[..|rs|-1]) + {rs[|rs|-1].id}
  {
    var r := rs[..|rs|-1];
    forall id | id in IdSet(r) ensures id in IdSet(rs) {
      var k :| 0 <= k < |r| && r[k].id == id;
      assert rs[k].id == id;
    }
  }

  lemma {:induction false} AcceptAllKeeps(m: Master, rs: seq<TaskResult>, compute: int -> int)
    requires Inv(m, compute) && Truthful(compute, rs)
    ensures Inv(AcceptAll(m, rs), compute)
    ensures AcceptAll(m, rs).running == m.running - IdSet(rs)
    ensures AcceptAll(m, rs).lists == m.lists
  {
    if rs == [] {
    } else {
      var r := rs[..|rs|-1];
      AcceptAllKeeps(m, r, compute);
      AcceptOneKeeps(AcceptAll(m, r), rs[|rs|-1], compute);
      IdSetLast(rs);
    }
  }

  lemma {:induction false} WithoutIn(s: seq<int>, removed: set<int>)
    ensures forall id :: id in Without(s, removed) <==> id in s && id !in removed
    ensures NoDup(s) ==> NoDup(Without(s, removed))
  {
    if s == [] {
    } else {
      WithoutIn(s[..|s|-1], removed);
      assert s == s[..|s|-1] + [s[|s|-1]];
    }
  }

  lemma DropReportedKeeps(m: Master, w: string, removed: set<int>, compute: int -> int)
    requires Inv(m, compute) && m.running !! removed
    ensures Inv(DropReported(m, w, removed), compute)
  {
    var m' := DropReported(m, w, removed);
    WithoutIn(ListOf(m.lists, w), removed);
    forall x | x in m'.running ensures exists v :: v in m'.lists && x in m'.lists[v] {
      var v :| v in m.lists && x in m.lists[v];
      assert v in m'.lists && x in m'.lists[v];
    }
    assert ListsAgree(m');
  }

  lemma SaveKeeps(m: Master, force: bool, now: int, compute: int -> int)
    requires Inv(m, compute)
    ensures Inv(Save(m, force, now), compute)
  {
    assert TrueSnapshot(Snapshot(m.items, m.lists), compute) by {
      forall id | DoneIn(m.items, id) ensures m.items[id].result == compute(id) {
        assert id in Ids(m.received);
        var k :| 0 <= k < |m.received| && Ids(m.received)[k] == id;
        assert m.received[k].id == id;
      }
    }
  }

  /** With nothing pending and nothing running, the solver holds the exact answer. */
  lemma AllDoneIsExact(m: Master, compute: int -> int)
    requires Inv(m, compute) && AllDone(m)
    ensures Exact(m.queue, compute, m.received)
  {
    HavingIn(m.queue, m.items, Pending);
    forall id ensures id in Ids(m.received) <==> id in m.queue {
      if id in m.queue {
        assert id !in m.pending && id !in m.running;
        assert m.items[id].status == Done;
      }
    }
    SameElementsPermute(Ids(m.received), m.queue);
  }

  lemma {:induction false} FinishKeeps(m: Master, compute: int -> int)
    requires Inv(m, compute) && AllDone(m)
    ensures Inv(Finish(m), compute)
  {
    AllDoneIsExact(m, compute);
  }

  lemma WithWorkerKeeps(m: Master, w: string, compute: int -> int)
    requires Inv(m, compute)
    ensures Inv(WithWorker(m, w), compute)
  {
    var m' := WithWorker(m, w);
    forall x | x in m'.running ensures exists v :: v in m'.lists && x in m'.lists[v] {
      var v :| v in m.lists && x in m.lists[v];
      assert v in m'.lists && x in m'.lists[v];
    }
    assert ListsAgree(m');
  }

  /** Every request keeps the invariant, provided reported results are true. */
  lemma HandleKeeps(m: Master, req: Request, now: int, compute: int -> int)
    requires Inv(m, compute)
    requires req.FinishCompute? ==> Truthful(compute, req.results)
    ensures Inv(Handle(m, req, now), compute)
  {
    WithWorkerKeeps(m, req.worker, compute);
    var m0 := WithWorker(m, req.worker);
    match req
    case GetTask(w, n) => HandOutKeeps(m0, w, Max(n, 1), compute);
    case FinishCompute(w, rs) =>
      AcceptAllKeeps(m0, rs, compute);
      var m1 := AcceptAll(m0, rs);
      DropReportedKeeps(m1, w, IdSet(rs), compute);
      var m2 := DropReported(m1, w, IdSet(rs));
      SaveKeeps(m2, AllDone(m2), now, compute);
      if AllDone(m2) { FinishKeeps(Save(m2, true, now), compute); }
    case OtherRequest(_) =>
  }

  // ----- start -----

  lemma {:induction false} CachedIds(queue: seq<int>, items: map<int, TaskItem>)
    ensures forall id :: id in Ids(Cached(queue, items)) <==> id in queue && DoneIn(items, id)
    ensures NoDup(queue) ==> NoDup(Ids(Cached(queue, items)))
    ensures forall k :: 0 <= k < |Cached(queue, items)| ==>
              var r := Cached(queue, items)[k];
              && r.id in queue && DoneIn(items, r.id)
              && r.result == items[r.id].result && r.timeUsage == items[r.id].timeUsage
  {
    if queue == [] {
    } else {
      var r, id := queue[..|queue|-1], queue[|queue|-1];
      CachedIds(r, items);
      assert queue == r + [id];
      var c := Cached(r, items);
      if DoneIn(items, id) {
        assert Ids(Cached(queue, items)) == Ids(c) + [id];
      } else {
        assert Cached(queue, items) == c;
      }
    }
  }

  lemma {:induction false} NotDoneIsPending(queue: seq<int>, saved: map<int, TaskItem>, items: map<int, TaskItem>)
    requires forall id :: id in queue ==> id in items && items[id].status == if DoneIn(saved, id) then Done else Pending
    ensures NotDone(queue, saved) == Having(queue, items, Pending)
  {
    if queue == [] {
    } else {
      NotDoneIsPending(queue[..|queue|-1], saved, items);
    }
  }

  lemma {:induction false} AllPending(queue: seq<int>, items: map<int, TaskItem>)
    requires forall id :: id in queue ==> id in items && items[id].status == Pending
    ensures Having(queue, items, Pending) == queue
  {
    if queue == [] {
    } else {
      AllPending(queue[..|queue|-1], items);
    }
  }

  lemma FreshKeeps(queue: seq<int>, file: Option<Snapshot>, compute: int -> int)
    requires NoDup(queue) && (file.Some? ==> TrueSnapshot(file.value, compute))
    ensures Inv(Fresh(queue, file), compute)
  {
    AllPending(queue, Fresh(queue, file).items);
  }

  lemma LoadQueues(queue: seq<int>, file: Option<Snapshot>, snap: Snapshot)
    requires NoDup(queue)
    ensures QueuesAgree(Load(Fresh(queue, file), snap)) && ListsAgree(Load(Fresh(queue, file), snap))
    ensures forall id :: DoneIn(Load(Fresh(queue, file), snap).items, id) <==> id in queue && DoneIn(snap.items, id)
  {
    var m := Load(Fresh(queue, file), snap);
    NotDoneIsPending(queue, snap.items, m.items);
  }

  lemma LoadSolver(queue: seq<int>, file: Option<Snapshot>, snap: Snapshot, compute: int -> int)
    requires NoDup(queue) && TrueSnapshot(snap, compute)
    ensures SolverAgrees(Load(Fresh(queue, file), snap), compute)
  {
    var m := Load(Fresh(queue, file), snap);
    LoadQueues(queue, file, snap);
    CachedIds(queue, snap.items);
    assert m.received == Cached(queue, snap.items);
  }

  /** Every start, with or without a state file, establishes the invariant. */
  lemma StartKeeps(queue: seq<int>, file: Option<Snapshot>, readState: bool, compute: int -> int)
    requires NoDup(queue) && (file.Some? ==> TrueSnapshot(file.value, compute))
    ensures Inv(Start(queue, file, readState), compute)
  {
    FreshKeeps(queue, file, compute);
    var m0 := Fresh(queue, file);
    if file.Some? {
      LoadQueues(queue, file, file.value);
      LoadSolver(queue, file, file.value, compute);
    }
    var m1 := if file.Some? then Load(m0, file.value) else m0;
    if readState && AllDone(m1) { FinishKeeps(m1, compute); }
  }

  // ----- what the invariant says -----

  /** Pending, running and done partition the task ids, without duplicates. */
  lemma Partition(m: Master, compute: int -> int)
    requires Inv(m, compute)
    ensures NoDup(m.pending)
    ensures forall id :: id in m.queue <==> id in m.pending || id in m.running || DoneIn(m.items, id)
    ensures forall id :: !(id in m.pending && id in m.running) && !(id in m.pending && DoneIn(m.items, id))
                         && !(id in m.running && DoneIn(m.items, id))
    ensures forall id :: id in m.pending || id in m.running ==> id in m.items
    ensures forall id :: id in m.pending ==> m.items[id].status == Pending
    ensures forall id :: id in m.running ==> m.items[id].status == Running
  {
    HavingIn(m.queue, m.items, Pending);
  }

  /** Every running task is listed exactly once across all workers. */
  lemma RunningListedOnce(m: Master, id: int, compute: int -> int)
    requires Inv(m, compute) && id in m.running
    ensures exists w :: w in m.lists && multiset(m.lists[w])[id] == 1 &&
                        forall v :: v in m.lists && v != w ==> multiset(m.lists[v])[id] == 0
  {
    var w :| w in m.lists && id in m.lists[w];
    NoDupCounts(m.lists[w], id);
    forall v | v in m.lists && v != w ensures multiset(m.lists[v])[id] == 0 {
      assert id !in m.lists[v];
    }
  }

  // ----- handouts -----

  /** Handing out takes a prefix of the pending queue, the one that the reply carries, and tells the solver nothing. */
  lemma {:induction false} HandOutTakesPrefix(m: Master, w: string, n: nat)
    ensures var m' := HandOut(m, w, n);
            && m.pending == m.pending[..Min(n, |m.pending|)] + m'.pending
            && m'.received == m.received && m'.finishes == m.finishes && m'.queue == m.queue && m'.file == m.file
    decreases n
  {
    if n == 0 || m.pending == [] {
    } else {
      HandOutTakesPrefix(HandOutOne(m, w), w, n - 1);
    }
  }

  function Batch(m: Master, n: nat): seq<int> {
    m.pending[..Min(n, |m.pending|)]
  }

  lemma BatchUnfolds(m: Master, w: string, n: nat)
    requires n != 0 && m.pending != []
    ensures Batch(m, n) == [m.pending[0]] + Batch(HandOutOne(m, w), n - 1)
  {
  }

  /** Exactly the tasks of the reply become running. */
  lemma {:induction false} HandOutRuns(m: Master, w: string, n: nat)
    ensures HandOut(m, w, n).running == m.running + (set id | id in m.pending[..Min(n, |m.pending|)])
    decreases n
  {
    if n == 0 || m.pending == [] {
      assert Batch(m, n) == [];
    } else {
      var m1 := HandOutOne(m, w);
      HandOutRuns(m1, w, n - 1);
      BatchUnfolds(m, w, n);
      IdsOfCons(m.pending[0], Batch(m1, n - 1));
    }
  }

  lemma IdsOfCons(id: int, batch: seq<int>)
    ensures (set x | x in [id] + batch) == {id} + (set x | x in batch)
  {
  }

  /** The tasks of the reply are appended, in order, to the list of the worker that asked, and to no other. */
  lemma {:induction false} HandOutLists(m: Master, w: string, n: nat)
    requires w in m.lists
    ensures HandOut(m, w, n).lists == m.lists[w := m.lists[w] + m.pending[..Min(n, |m.pending|)]]
    decreases n
  {
    if n == 0 || m.pending == [] {
      assert Batch(m, n) == [];
      assert m.lists[w] + Batch(m, n) == m.lists[w];
    } else {
      var m1 := HandOutOne(m, w);
      HandOutLists(m1, w, n - 1);
      BatchUnfolds(m, w, n);
      AppendTwice(m.lists, w, m.pending[0], Batch(m1, n - 1));
    }
  }

  lemma AppendTwice(lists: map<string, seq<int>>, w: string, id: int, batch: seq<int>)
    requires w in lists
    ensures var lists1 := lists[w := lists[w] + [id]];
            lists1[w := lists1[w] + batch] == lists[w := lists[w] + ([id] + batch)]
  {
    assert lists[w] + [id] + batch == lists[w] + ([id] + batch);
  }

  // ----- reports -----

  lemma ConcludeFields(m: Master, now: int)
    ensures var m' := Conclude(m, now);
            && m'.pending == m.pending && m'.running == m.running && m'.items == m.items && m'.lists == m.lists
            && m'.received == m.received && m'.queue == m.queue
  {
  }

  /** What concluding a report leaves alone. */
  lemma ReportFields(m: Master, w: string, rs: seq<TaskResult>, now: int)
    ensures var m', m1 := Reported(m, w, rs, now), AcceptAll(m, rs);
            && m'.pending == m1.pending && m'.running == m1.running && m'.items == m1.items
            && m'.received == m1.received && m'.queue == m1.queue
            && m'.lists == m1.lists[w := Without(ListOf(m1.lists, w), IdSet(rs))]
  {
    ConcludeFields(DropReported(AcceptAll(m, rs), w, IdSet(rs)), now);
  }

  /** A report settles exactly the running tasks it names, whoever they were handed to. */
  lemma ReportSettles(m: Master, w: string, rs: seq<TaskResult>, now: int)
    requires QueuesAgree(m)
    ensures var m' := Handle(m, FinishCompute(w, rs), now);
            && m'.pending == m.pending && m'.running == m.running - IdSet(rs)
            && (forall id :: DoneIn(m'.items, id) <==> DoneIn(m.items, id) || (id in m.running && id in IdSet(rs)))
  {
    ReportFields(WithWorker(m, w), w, rs, now);
    AcceptAllWork(WithWorker(m, w), rs);
    AcceptAllSettles(WithWorker(m, w), rs);
  }

  /** A report leaves on the reporter's list exactly the tasks it does not name, and no other list changes. */
  lemma ReportUnlists(m: Master, w: string, rs: seq<TaskResult>, now: int)
    ensures var m' := Handle(m, FinishCompute(w, rs), now);
            && (forall v :: v in m'.lists <==> v == w || v in m.lists)
            && (forall v :: v in m.lists && v != w ==> m'.lists[v] == m.lists[v])
            && (forall id :: id in m'.lists[w] <==> id in ListOf(m.lists, w) && id !in IdSet(rs))
  {
    ReportFields(WithWorker(m, w), w, rs, now);
    AcceptAllWork(WithWorker(m, w), rs);
    WithoutIn(ListOf(m.lists, w), IdSet(rs));
  }

  lemma {:induction false} AcceptAllSettles(m: Master, rs: seq<TaskResult>)
    requires forall id :: id in m.running ==> !DoneIn(m.items, id)
    ensures var m' := AcceptAll(m, rs);
            && m'.running == m.running - IdSet(rs)
            && forall id :: DoneIn(m'.items, id) <==> DoneIn(m.items, id) || (id in m.running && id in IdSet(rs))
    decreases |rs|
  {
    if rs == [] {
    } else {
      AcceptAllSettles(m, rs[..|rs|-1]);
      IdSetLast(rs);
    }
  }

  /**
   A report is saved exactly when it completes the work, or nothing was saved
   before, or four minutes have passed since; what is saved is the new state.
   Times are in microseconds.
   */
  lemma ReportIsSavedExactly(m: Master, w: string, rs: seq<TaskResult>, now: int)
    requires rs != []
    ensures var m' := Handle(m, FinishCompute(w, rs), now);
            if (m'.pending == [] && m'.running == {}) || m.lastSave == 0 || now - m.lastSave >= 240_000_000
            then m'.file == Some(SnapshotOf(m')) && m'.lastSave == now
            else m'.file == m.file && m'.lastSave == m.lastSave
  {
    AcceptAllWork(WithWorker(m, w), rs);
    AcceptAllKeepsClock(WithWorker(m, w), rs);
    WholeMinutes(now - m.lastSave);
  }

  lemma WholeMinutes(delta: int)
    ensures InMinutes(delta) > 3 <==> delta >= 240_000_000
  {
  }

  lemma {:induction false} AcceptAllKeepsClock(m: Master, rs: seq<TaskResult>)
    ensures AcceptAll(m, rs).lastSave == m.lastSave
    decreases |rs|
  {
    if rs == [] {
    } else {
      AcceptAllKeepsClock(m, rs[..|rs|-1]);
    }
  }

  /** The work left; it falls on every non-empty handout and every accepted result. */
  function Work(m: Master): nat {
    2 * |m.pending| + |m.running|
  }

  ghost predicate PendingApart(m: Master) {
    NoDup(m.pending) && forall id :: id in m.pending ==> id !in m.running
  }

  lemma HandOutOneWork(m: Master, w: string)
    requires PendingApart(m) && m.pending != []
    ensures var m1 := HandOutOne(m, w);
            PendingApart(m1) && Work(m1) == Work(m) - 1 && |m1.pending| == |m.pending| - 1
  {
    assert m.pending[0] in m.pending;
    forall id | id in m.pending[1..] ensures id in m.pending && id != m.pending[0] {
      var k :| 0 <= k < |m.pending| - 1 && m.pending[1..][k] == id;
      assert m.pending[k+1] == id;
    }
  }

  lemma {:induction false} HandOutWork(m: Master, w: string, n: nat)
    requires PendingApart(m)
    ensures Work(HandOut(m, w, n)) == Work(m) - Min(n, |m.pending|)
    decreases n
  {
    if n == 0 || m.pending == [] {
    } else {
      HandOutOneWork(m, w);
      HandOutUnfolds(m, w, n);
      HandOutWork(HandOutOne(m, w), w, n - 1);
    }
  }

  lemma {:induction false} AcceptAllWork(m: Master, rs: seq<TaskResult>)
    ensures var m' := AcceptAll(m, rs);
            && Work(m') + |m'.received| == Work(m) + |m.received|
            && m.received <= m'.received
            && m'.pending == m.pending && m'.lists == m.lists && m'.queue == m.queue
            && m'.file == m.file && m'.finishes == m.finishes
    decreases |rs|
  {
    if rs == [] {
    } else {
      AcceptAllWork(m, rs[..|rs|-1]);
    }
  }

  /** Each request lowers the work by exactly the tasks it hands out plus the results it accepts. */
  lemma WorkFalls(m: Master, req: Request, now: int, compute: int -> int)
    requires Inv(m, compute)
    ensures var m' := Handle(m, req, now);
            var handed := if req.GetTask? then BatchSize(m, req.maxTaskCount) else 0;
            Work(m') == Work(m) - handed - (|m'.received| - |m.received|) && m.received <= m'.received
  {
    WithWorkerKeeps(m, req.worker, compute);
    var m0 := WithWorker(m, req.worker);
    match req
    case GetTask(w, n) =>
      Partition(m0, compute);
      HandOutWork(m0, w, Max(n, 1));
      HandOutTakesPrefix(m0, w, Max(n, 1));
    case FinishCompute(w, rs) =>
      AcceptAllWork(m0, rs);
      ReportFields(m0, w, rs, now);
    case OtherRequest(_) =>
  }

  // ----- a done task is settled -----

  lemma {:induction false} HandOutLeavesDone(m: Master, w: string, n: nat, id: int, compute: int -> int)
    requires Inv(m, compute) && DoneIn(m.items, id)
    ensures DoneIn(HandOut(m, w, n).items, id) && HandOut(m, w, n).items[id] == m.items[id]
    decreases n
  {
    if n == 0 || m.pending == [] {
    } else {
      PendingHead(m);
      HandOutOneKeeps(m, w, compute);
      HandOutLeavesDone(HandOutOne(m, w), w, n - 1, id, compute);
    }
  }

  lemma {:induction false} AcceptAllLeavesDone(m: Master, rs: seq<TaskResult>, id: int)
    requires DoneIn(m.items, id) && id !in m.running
    ensures var m' := AcceptAll(m, rs);
            && DoneIn(m'.items, id) && m'.items[id] == m.items[id] && id !in m'.running
            && |m.received| <= |m'.received|
            && (forall k :: |m.received| <= k < |m'.received| ==> m'.received[k].id != id)
    decreases |rs|
  {
    if rs == [] {
    } else {
      AcceptAllLeavesDone(m, rs[..|rs|-1], id);
    }
  }

  /** A done task keeps its record, is not in the reply, and is not delivered to the solver again. */
  lemma DoneIsSettled(m: Master, req: Request, now: int, id: int, compute: int -> int)
    requires Inv(m, compute) && DoneIn(m.items, id)
    ensures var m' := Handle(m, req, now);
            && DoneIn(m'.items, id) && m'.items[id] == m.items[id]
            && |m.received| <= |m'.received|
            && (forall k :: |m.received| <= k < |m'.received| ==> m'.received[k].id != id)
            && (req.GetTask? ==> id !in ReplyTo(m, req).tasks)
  {
    WithWorkerKeeps(m, req.worker, compute);
    var m0 := WithWorker(m, req.worker);
    HavingIn(m.queue, m.items, Pending);
    match req
    case GetTask(w, n) =>
      HandOutLeavesDone(m0, w, Max(n, 1), id, compute);
      HandOutTakesPrefix(m0, w, Max(n, 1));
      assert id !in m.pending;
    case FinishCompute(w, rs) =>
      AcceptAllLeavesDone(m0, rs, id);
      ReportFields(m0, w, rs, now);
    case OtherRequest(_) =>
  }

  // ----- save and reload -----

  function SnapshotOf(m: Master): Snapshot {
    Snapshot(m.items, m.lists)
  }

  function Reload(m: Master): Master {
    Start(m.queue, Some(SnapshotOf(m)), true)
  }

  lemma ReloadIs(m: Master)
    requires QueuesAgree(m)
    ensures var m' := Reload(m);
            && m'.queue == m.queue && m'.running == {} && m'.lastSave == 0 && m'.file == Some(SnapshotOf(m))
            && m'.pending == NotDone(m.queue, m.items) && m'.received == Cached(m.queue, m.items)
            && m'.items == (map id | id in m.queue :: if DoneIn(m.items, id) then m.items[id] else FRESH_ITEM)
            && m'.lists == (map w | w in m.lists :: [])
            && m'.exiting == (NotDone(m.queue, m.items) == [])
            && m'.finishes == if NotDone(m.queue, m.items) == [] then [Cached(m.queue, m.items)] else []
  {
    var m0 := Fresh(m.queue, Some(SnapshotOf(m)));
    assert m0.lists + (map w | w in m.lists :: []) == (map w | w in m.lists :: []);
    assert m0.received + Cached(m.queue, m.items) == Cached(m.queue, m.items);
  }

  lemma {:induction false} ReloadKeeps(m: Master, compute: int -> int)
    requires Inv(m, compute)
    ensures Inv(Reload(m), compute)
  {
    SaveKeeps(m, true, 0, compute);
    assert Save(m, true, 0).file == Some(SnapshotOf(m));
    StartKeeps(m.queue, Some(SnapshotOf(m)), true, compute);
  }

  /** Reloading a reachable state keeps exactly its done tasks and re-queues the rest in order. */
  lemma ReloadRestores(m: Master, compute: int -> int)
    requires Inv(m, compute)
    ensures var m' := Reload(m);
            && m'.running == {}
            && m'.pending == NotDone(m.queue, m.items)
            && (forall id :: DoneIn(m'.items, id) <==> DoneIn(m.items, id))
            && (forall id :: DoneIn(m.items, id) ==> m'.items[id] == m.items[id])
            && (forall w :: w in m.lists <==> w in m'.lists) && (forall w :: w in m'.lists ==> m'.lists[w] == [])
  {
    ReloadIs(m);
  }

  /** The solver of the new process is told the same results as the old one, if perhaps in another order. */
  lemma ReloadTellsSolver(m: Master, compute: int -> int)
    requires Inv(m, compute)
    ensures multiset(Ids(Reload(m).received)) == multiset(Ids(m.received))
    ensures Total(Reload(m).received) == Total(m.received)
  {
    ReloadKeeps(m, compute);
    ReloadRestores(m, compute);
    var m' := Reload(m);
    SameElementsPermute(Ids(m'.received), Ids(m.received));
    TotalOfTrueResults(compute, m.received);
    TotalOfTrueResults(compute, m'.received);
    SequentialTotalPermutes(Ids(m'.received), Ids(m.received), compute);
  }

  lemma {:induction false} NotDoneDependsOnDone(queue: seq<int>, a: map<int, TaskItem>, b: map<int, TaskItem>)
    requires forall id :: id in queue ==> DoneIn(a, id) == DoneIn(b, id) && (DoneIn(a, id) ==> a[id] == b[id])
    ensures NotDone(queue, a) == NotDone(queue, b) && Cached(queue, a) == Cached(queue, b)
  {
    if queue == [] {
    } else {
      NotDoneDependsOnDone(queue[..|queue|-1], a, b);
    }
  }

  lemma SettledReload(m: Master, m1: Master)
    requires QueuesAgree(m) && QueuesAgree(m1) && m1 == Reload(m)
    ensures Reload(m1) == m1.(file := Some(SnapshotOf(m1)))
  {
    ReloadIs(m);
    ReloadIs(m1);
    NotDoneDependsOnDone(m.queue, m.items, m1.items);
    SettledItems(m.queue, m.items, m1.items);
    SettledLists(m.lists, m1.lists);
  }

  lemma SettledItems(queue: seq<int>, a: map<int, TaskItem>, b: map<int, TaskItem>)
    requires b == map id | id in queue :: if DoneIn(a, id) then a[id] else FRESH_ITEM
    ensures b == map id | id in queue :: if DoneIn(b, id) then b[id] else FRESH_ITEM
  {
  }

  lemma SettledLists(a: map<string, seq<int>>, b: map<string, seq<int>>)
    requires b == map w | w in a :: []
    ensures b == map w | w in b :: []
  {
  }

  /** Saving and reloading a second time changes nothing but the file itself. */
  lemma {:induction false} ReloadIsIdempotent(m: Master, compute: int -> int)
    requires Inv(m, compute)
    ensures Reload(Reload(m)) == Reload(m).(file := Some(SnapshotOf(Reload(m))))
  {
    ReloadKeeps(m, compute);
    SettledReload(m, Reload(m));
  }

  lemma {:induction false} NothingLeft(queue: seq<int>, items: map<int, TaskItem>)
    requires forall id :: id in queue ==> DoneIn(items, id)
    ensures NotDone(queue, items) == []
  {
    if queue == [] {
    } else {
      NothingLeft(queue[..|queue|-1], items);
    }
  }

  /** A file saved at completion makes the next start finish at once, with nothing to hand out. */
  lemma {:induction false} CompletedReloadFinishes(m: Master, compute: int -> int)
    requires Inv(m, compute) && AllDone(m)
    ensures var m' := Reload(m);
            && AllDone(m') && m'.exiting
            && m'.finishes == [m'.received] && Exact(m.queue, compute, m'.received)
            && (forall w, n :: ReplyTo(m', GetTask(w, n)) == TaskBatch([]))
  {
    Partition(m, compute);
    NothingLeft(m.queue, m.items);
    ReloadIs(m);
    ReloadKeeps(m, compute);
    AllDoneIsExact(Reload(m), compute);
  }
}
