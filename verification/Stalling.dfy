/**
 What a master that is not started again can still achieve: exactly when Finish
 is still within reach.
 */
module Stalling {
  import opened Common
  import opened Tasks
  import opened MasterModel
  import opened Protocol
  import R = Recovery
  import MI = MasterInvariant
  import W = WorkerModel

  // ----- what can still be reported -----

  /**
   A running task is never handed out a second time, and a batch only reaches the
   slot that waits for it, so everything depends on the workers. A worker that has
   asked to exit leaves the main loop some time later. Where `prompt` holds, it does
   nothing more from then on; where it does not hold, it may still act until it is
   gone. What follows is proved for both.
   */
  ghost predicate Works(proc: Process, prompt: bool) {
    proc.alive && (prompt ==> !proc.state.exitRequested)
  }

  ghost predicate Names(r: Request, id: int) {
    r.FinishCompute? && id in IdSet(r.results)
  }

  ghost predicate HasReport(s: System, id: int) {
    exists env :: env in s.requests && Names(env.request, id)
  }

  /** Slot k of process p works on a batch with this task. */
  ghost predicate WorksOn(s: System, prompt: bool, p: nat, k: nat, id: int) {
    && p in s.processes && Works(s.processes[p], prompt)
    && k < |s.processes[p].state.slots| && k < |s.processes[p].asked|
    && s.processes[p].state.slots[k].Computing? && id in s.processes[p].state.slots[k].tasks
  }

  ghost predicate InWork(s: System, prompt: bool, id: int) {
    exists p: nat, k: nat :: WorksOn(s, prompt, p, k, id)
  }

  /** Slot k of process p waits for the answer to a request that was answered with these tasks. */
  ghost predicate MayReceive(s: System, prompt: bool, p: nat, k: nat, tasks: seq<int>) {
    && p in s.processes && Works(s.processes[p], prompt)
    && k < |s.processes[p].state.slots| && k < |s.processes[p].asked|
    && s.processes[p].state.slots[k].Getting?
    && (TicketOf(p, s.processes[p], k), TaskBatch(tasks)) in s.answers
  }

  /** One answer for each of some waiting slots; a request that was handled twice has two to choose from. */
  type Choice = map<(nat, nat), seq<int>>

  ghost predicate GoodChoice(s: System, prompt: bool, c: Choice) {
    forall q :: q in c ==> MayReceive(s, prompt, q.0, q.1, c[q])
  }

  ghost predicate Chosen(c: Choice, id: int) {
    exists q :: q in c && id in c[q]
  }

  ghost predicate Covers(s: System, prompt: bool, c: Choice, id: int) {
    HasReport(s, id) || InWork(s, prompt, id) || Chosen(c, id)
  }

  ghost predicate CoversAll(s: System, prompt: bool, c: Choice, ids: set<int>) {
    GoodChoice(s, prompt, c) && forall id :: id in ids ==> Covers(s, prompt, c, id)
  }

  /**
   Each of these tasks has been reported, or is being computed, or is in the one
   answer chosen for a slot that waits for it.
   */
  ghost predicate Coverable(s: System, prompt: bool, ids: set<int>) {
    exists c :: CoversAll(s, prompt, c, ids)
  }

  // ----- continuations -----

  ghost predicate Allowed(s: System, prompt: bool, e: Event) {
    && !e.MasterStart?
    && (prompt && e.WorkerCallback? && e.p in s.processes ==> !s.processes[e.p].state.exitRequested)
  }

  /** The master is not started again; if exit is prompt, a worker that has asked for it does nothing more. */
  ghost predicate Orderly(compute: int -> int, s: System, prompt: bool, es: seq<Event>) {
    es == [] ||
    var init := es[..|es|-1];
    Orderly(compute, s, prompt, init) && Allowed(RunFrom(compute, s, init), prompt, es[|es|-1])
  }

  ghost predicate FinishInReach(compute: int -> int, s: System, prompt: bool) {
    exists es :: && Orderly(compute, s, prompt, es)
                 && RunFrom(compute, s, es).master.Some? && RunFrom(compute, s, es).master.value.finishes != []
  }

  lemma {:induction false} OrderlyConcat(compute: int -> int, s: System, prompt: bool, a: seq<Event>, b: seq<Event>)
    requires Orderly(compute, s, prompt, a) && Orderly(compute, RunFrom(compute, s, a), prompt, b)
    ensures Orderly(compute, s, prompt, a + b)
  {
    if b == [] {
      assert a + b == a;
    } else {
      var init := b[..|b|-1];
      assert (a + b)[..|a + b|-1] == a + init;
      OrderlyConcat(compute, s, prompt, a, init);
      R.RunConcat(compute, s, a, init);
    }
  }

  lemma OneEvent(compute: int -> int, s: System, prompt: bool, e: Event)
    requires Allowed(s, prompt, e)
    ensures RunFrom(compute, s, [e]) == Apply(compute, s, e) && Orderly(compute, s, prompt, [e])
  {
    assert [e][..0] == [];
  }

  // ----- nothing is won: a choice after an event comes from a choice before it -----

  lemma RunningIsNotPending(m: Master, id: int)
    requires MI.QueuesAgree(m) && id in m.running
    ensures id !in m.pending
  {
    MI.HavingIn(m.queue, m.items, Pending);
  }

  lemma NewAnswer(compute: int -> int, s: System, e: Event, a: (Ticket, Reply), id: int)
    requires e.MasterHandle? && Enabled(s, e)
    requires a in Apply(compute, s, e).answers && a.1.TaskBatch? && id in a.1.tasks
    ensures a in s.answers || id in s.master.value.pending
  {
  }

  lemma HandleWinsNothing(compute: int -> int, s: System, prompt: bool, e: Event, ids: set<int>, c': Choice)
    requires e.MasterHandle? && Enabled(s, e) && CoversAll(Apply(compute, s, e), prompt, c', ids)
    requires forall id :: id in ids ==> id !in s.master.value.pending
    ensures Coverable(s, prompt, ids)
  {
    var s' := Apply(compute, s, e);
    var c: Choice := map q | q in c' && MayReceive(s, prompt, q.0, q.1, c'[q]) :: c'[q];
    forall id | id in ids ensures Covers(s, prompt, c, id) {
      if HasReport(s', id) {
        assert HasReport(s, id);
      } else if InWork(s', prompt, id) {
        var p: nat, k: nat :| WorksOn(s', prompt, p, k, id);
        assert WorksOn(s, prompt, p, k, id);
      } else {
        var q :| q in c' && id in c'[q];
        NewAnswer(compute, s, e, (TicketOf(q.0, s'.processes[q.0], q.1), TaskBatch(c'[q])), id);
        assert q in c;
      }
    }
    assert CoversAll(s, prompt, c, ids);
  }

  lemma StopWinsNothing(compute: int -> int, s: System, prompt: bool, e: Event, ids: set<int>, c: Choice)
    requires (e.MasterStop? || e.WorkerStop?) && Enabled(s, e) && CoversAll(Apply(compute, s, e), prompt, c, ids)
    ensures Coverable(s, prompt, ids)
  {
    var s' := Apply(compute, s, e);
    forall q | q in c ensures MayReceive(s, prompt, q.0, q.1, c[q]) {
      assert MayReceive(s', prompt, q.0, q.1, c[q]);
    }
    forall id | id in ids ensures Covers(s, prompt, c, id) {
      assert Covers(s', prompt, c, id);
      if HasReport(s', id) {
        assert HasReport(s, id);
      } else if InWork(s', prompt, id) {
        var p: nat, k: nat :| WorksOn(s', prompt, p, k, id);
        assert WorksOn(s, prompt, p, k, id);
      }
    }
    assert CoversAll(s, prompt, c, ids);
  }

  lemma WorkerStartWinsNothing(compute: int -> int, s: System, prompt: bool, e: Event, ids: set<int>, c: Choice)
    requires Inv(compute, s)
    requires e.WorkerStart? && Enabled(s, e) && CoversAll(Apply(compute, s, e), prompt, c, ids)
    ensures Coverable(s, prompt, ids)
  {
    var s' := Apply(compute, s, e);
    forall q | q in c ensures MayReceive(s, prompt, q.0, q.1, c[q]) {
      assert MayReceive(s', prompt, q.0, q.1, c[q]);
      assert GoodAnswer(s.processes, (TicketOf(q.0, s'.processes[q.0], q.1), TaskBatch(c[q])));
    }
    forall id | id in ids ensures Covers(s, prompt, c, id) {
      assert Covers(s', prompt, c, id);
      if HasReport(s', id) {
        var env :| env in s'.requests && Names(env.request, id);
        assert env in s.requests;
      } else if InWork(s', prompt, id) {
        var p: nat, k: nat :| WorksOn(s', prompt, p, k, id);
        assert WorksOn(s, prompt, p, k, id);
      }
    }
    assert CoversAll(s, prompt, c, ids);
  }

  /** The choice before a callback: the one after it, and the batch it took, if it took one. */
  ghost function Undone(c': Choice, e: W.WorkerEvent, p: nat): Choice {
    if e.GotTasks? && e.tasks != [] then c'[(p, e.slot) := e.tasks] else c'
  }

  /** After a callback its slot waits for nothing that has been answered yet. */
  lemma ActingSlotIsFresh(compute: int -> int, s: System, prompt: bool, e: Event, tasks: seq<int>)
    requires Inv(compute, s) && e.WorkerCallback? && Enabled(s, e)
    ensures !MayReceive(Apply(compute, s, e), prompt, e.p, e.event.slot, tasks)
  {
    if e.event.FinishAccepted? {
      var a := (TicketOf(e.p, AfterCallback(s.processes[e.p], e.event), e.event.slot), TaskBatch(tasks));
      assert a in s.answers ==> GoodAnswer(s.processes, a);
    }
  }

  lemma OtherSlotsWait(compute: int -> int, s: System, prompt: bool, e: Event, p: nat, k: nat, tasks: seq<int>)
    requires e.WorkerCallback? && Enabled(s, e) && Allowed(s, prompt, e) && (p != e.p || k != e.event.slot)
    ensures MayReceive(Apply(compute, s, e), prompt, p, k, tasks) ==> MayReceive(s, prompt, p, k, tasks)
  {
  }

  lemma UndoneIsGood(compute: int -> int, s: System, prompt: bool, e: Event, c': Choice)
    requires Inv(compute, s) && e.WorkerCallback? && Enabled(s, e) && Allowed(s, prompt, e)
    requires GoodChoice(Apply(compute, s, e), prompt, c')
    ensures GoodChoice(s, prompt, Undone(c', e.event, e.p))
  {
    var c := Undone(c', e.event, e.p);
    forall q | q in c ensures MayReceive(s, prompt, q.0, q.1, c[q]) {
      if q != (e.p, e.event.slot) {
        OtherSlotsWait(compute, s, prompt, e, q.0, q.1, c[q]);
      } else {
        assert q !in c' by { forall tasks { ActingSlotIsFresh(compute, s, prompt, e, tasks); } }
      }
    }
  }

  lemma CallbackReports(compute: int -> int, s: System, prompt: bool, e: Event, r: Request, id: int)
    requires Enabled(s, e) && e.WorkerCallback? && Allowed(s, prompt, e)
    requires r in Sends(compute, s.processes[e.p], e.event, e.times) && Names(r, id)
    ensures InWork(s, prompt, id)
  {
    var tasks := s.processes[e.p].state.slots[e.event.slot].tasks;
    var k :| 0 <= k < |r.results| && r.results[k].id == id;
    assert tasks[k] == id;
    assert WorksOn(s, prompt, e.p, e.event.slot, id);
  }

  lemma CallbackStarts(compute: int -> int, s: System, prompt: bool, e: Event, c': Choice, p: nat, k: nat, id: int)
    requires Enabled(s, e) && e.WorkerCallback? && Allowed(s, prompt, e)
    requires WorksOn(Apply(compute, s, e), prompt, p, k, id)
    ensures WorksOn(s, prompt, p, k, id) || Chosen(Undone(c', e.event, e.p), id)
  {
    if p == e.p && k == e.event.slot {
      var c := Undone(c', e.event, e.p);
      assert (p, k) in c && id in c[(p, k)];
    }
  }

  lemma CallbackWinsNothing(compute: int -> int, s: System, prompt: bool, e: Event, ids: set<int>, c': Choice)
    requires Inv(compute, s) && e.WorkerCallback? && Enabled(s, e) && Allowed(s, prompt, e)
    requires CoversAll(Apply(compute, s, e), prompt, c', ids)
    ensures Coverable(s, prompt, ids)
  {
    var s', c := Apply(compute, s, e), Undone(c', e.event, e.p);
    UndoneIsGood(compute, s, prompt, e, c');
    forall id | id in ids ensures Covers(s, prompt, c, id) {
      if HasReport(s', id) {
        var env :| env in s'.requests && Names(env.request, id);
        if env !in s.requests { CallbackReports(compute, s, prompt, e, env.request, id); }
      } else if InWork(s', prompt, id) {
        var p: nat, k: nat :| WorksOn(s', prompt, p, k, id);
        CallbackStarts(compute, s, prompt, e, c', p, k, id);
      } else {
        var q :| q in c' && id in c'[q];
        KeptByUndo(compute, s, prompt, e, c', q);
        assert q in c && id in c[q];
      }
    }
    assert CoversAll(s, prompt, c, ids);
  }

  lemma KeptByUndo(compute: int -> int, s: System, prompt: bool, e: Event, c': Choice, q: (nat, nat))
    requires e.WorkerCallback? && Enabled(s, e) && GoodChoice(Apply(compute, s, e), prompt, c') && q in c'
    ensures q in Undone(c', e.event, e.p) && Undone(c', e.event, e.p)[q] == c'[q]
  {
    assert MayReceive(Apply(compute, s, e), prompt, q.0, q.1, c'[q]);
  }

  lemma StepWinsNothing(compute: int -> int, s: System, prompt: bool, e: Event, ids: set<int>)
    requires Inv(compute, s) && Allowed(s, prompt, e)
    requires s.master.Some? ==> forall id :: id in ids ==> id !in s.master.value.pending
    ensures Coverable(Apply(compute, s, e), prompt, ids) ==> Coverable(s, prompt, ids)
  {
    if Enabled(s, e) && Coverable(Apply(compute, s, e), prompt, ids) {
      var c :| CoversAll(Apply(compute, s, e), prompt, c, ids);
      match e
      case MasterHandle(_, _) => HandleWinsNothing(compute, s, prompt, e, ids, c);
      case MasterStop => StopWinsNothing(compute, s, prompt, e, ids, c);
      case WorkerStart(_, _, _, _) => WorkerStartWinsNothing(compute, s, prompt, e, ids, c);
      case WorkerCallback(_, _, _) => CallbackWinsNothing(compute, s, prompt, e, ids, c);
      case WorkerStop(_) => StopWinsNothing(compute, s, prompt, e, ids, c);
    }
  }

  // ----- what becomes of the running tasks -----

  /** These tasks are running still or have been reported, and all of them reported if Finish has been called since. */
  ghost predicate Tracked(s: System, ids: set<int>, finishes: seq<seq<TaskResult>>) {
    s.master.Some? ==>
      var m := s.master.value;
      && (forall id :: id in ids ==> id !in m.pending && (id in m.running || HasReport(s, id)))
      && (m.finishes != finishes ==> forall id :: id in ids ==> HasReport(s, id))
  }

  lemma {:induction false} StillRunning(m: Master, rs: seq<TaskResult>, id: int)
    requires id in m.running && id !in IdSet(rs)
    ensures id in AcceptAll(m, rs).running
    decreases |rs|
  {
    if rs == [] {
    } else {
      MI.IdSetLast(rs);
      StillRunning(m, rs[..|rs|-1], id);
    }
  }

  lemma RunningUnlessNamed(m: Master, req: Request, now: int, id: int)
    requires id in m.running && !Names(req, id)
    ensures id in Handle(m, req, now).running
  {
    var m0 := WithWorker(m, req.worker);
    match req
    case GetTask(w, n) => MI.HandOutRuns(m0, w, Max(n, 1));
    case FinishCompute(w, rs) =>
      StillRunning(m0, rs, id);
      MI.ReportFields(m0, w, rs, now);
    case OtherRequest(_) =>
  }

  lemma FinishMeansDone(m: Master, req: Request, now: int)
    ensures Handle(m, req, now).finishes == m.finishes || Handle(m, req, now).running == {}
  {
    var m0 := WithWorker(m, req.worker);
    match req
    case GetTask(w, n) => MI.HandOutTakesPrefix(m0, w, Max(n, 1));
    case FinishCompute(w, rs) => MI.AcceptAllWork(m0, rs);
    case OtherRequest(_) =>
  }

  lemma HandleTracks(compute: int -> int, s: System, e: Event, ids: set<int>, finishes: seq<seq<TaskResult>>)
    requires e.MasterHandle? && Enabled(s, e) && Tracked(s, ids, finishes)
    ensures Tracked(Apply(compute, s, e), ids, finishes)
  {
    var m, req, s' := s.master.value, e.envelope.request, Apply(compute, s, e);
    ReplyIsPrefix(m, req, e.now);
    FinishMeansDone(m, req, e.now);
    forall id | id in ids ensures HasReport(s, id) ==> HasReport(s', id) {
      if HasReport(s, id) {
        var env :| env in s.requests && Names(env.request, id);
        assert env in s'.requests;
      }
    }
    forall id | id in ids && id in m.running ensures id in s'.master.value.running || HasReport(s', id) {
      if Names(req, id) {
        assert e.envelope in s'.requests;
      } else {
        RunningUnlessNamed(m, req, e.now, id);
      }
    }
  }

  lemma OthersTrack(compute: int -> int, s: System, e: Event, ids: set<int>, finishes: seq<seq<TaskResult>>)
    requires Enabled(s, e) && !e.MasterHandle? && !e.MasterStart? && Tracked(s, ids, finishes)
    ensures Tracked(Apply(compute, s, e), ids, finishes)
  {
    var s' := Apply(compute, s, e);
    assert s'.master.Some? ==> s'.master == s.master;
    forall id | id in ids ensures HasReport(s, id) ==> HasReport(s', id) {
      if HasReport(s, id) {
        var env :| env in s.requests && Names(env.request, id);
        assert env in s'.requests;
      }
    }
  }

  lemma {:induction false} RunWinsNothing(compute: int -> int, s: System, prompt: bool, es: seq<Event>,
                                          ids: set<int>, finishes: seq<seq<TaskResult>>)
    requires Inv(compute, s) && Orderly(compute, s, prompt, es) && Tracked(s, ids, finishes)
    ensures Tracked(RunFrom(compute, s, es), ids, finishes)
    ensures Coverable(RunFrom(compute, s, es), prompt, ids) ==> Coverable(s, prompt, ids)
  {
    if es == [] {
    } else {
      var init, e := es[..|es|-1], es[|es|-1];
      var s1 := RunFrom(compute, s, init);
      RunWinsNothing(compute, s, prompt, init, ids, finishes);
      RunKeeps(compute, s, init);
      StepWinsNothing(compute, s1, prompt, e, ids);
      if Enabled(s1, e) {
        if e.MasterHandle? { HandleTracks(compute, s1, e, ids, finishes); }
        else { OthersTrack(compute, s1, e, ids, finishes); }
      }
    }
  }

  lemma ReportedIsCoverable(s: System, prompt: bool, ids: set<int>)
    requires forall id :: id in ids ==> HasReport(s, id)
    ensures Coverable(s, prompt, ids)
  {
    assert CoversAll(s, prompt, map[], ids);
  }

  lemma RunningIsTracked(compute: int -> int, s: System, ids: set<int>)
    requires Inv(compute, s) && s.master.Some? && ids <= s.master.value.running
    ensures Tracked(s, ids, s.master.value.finishes)
  {
    forall id | id in ids ensures id !in s.master.value.pending { RunningIsNotPending(s.master.value, id); }
  }

  /** Out of everyone's reach. */
  ghost predicate Lost(s: System, prompt: bool, id: int) {
    s.master.Some? && id in s.master.value.running && !Coverable(s, prompt, {id})
  }

  /** A lost task stays lost, and Finish is not called, as long as the master is not started again. */
  lemma LostForGood(compute: int -> int, s: System, prompt: bool, es: seq<Event>, id: int)
    requires Inv(compute, s) && Lost(s, prompt, id) && Orderly(compute, s, prompt, es)
    ensures var s' := RunFrom(compute, s, es);
            s'.master.Some? ==> Lost(s', prompt, id) && s'.master.value.finishes == s.master.value.finishes
  {
    RunningIsTracked(compute, s, {id});
    RunWinsNothing(compute, s, prompt, es, {id}, s.master.value.finishes);
    var s' := RunFrom(compute, s, es);
    if HasReport(s', id) { ReportedIsCoverable(s', prompt, {id}); }
  }

  lemma InReachIsCoverable(compute: int -> int, s: System, prompt: bool)
    requires Inv(compute, s) && s.master.Some? && s.master.value.finishes == [] && FinishInReach(compute, s, prompt)
    ensures Coverable(s, prompt, s.master.value.running)
  {
    var ids := s.master.value.running;
    var es :| && Orderly(compute, s, prompt, es)
              && RunFrom(compute, s, es).master.Some? && RunFrom(compute, s, es).master.value.finishes != [];
    RunningIsTracked(compute, s, ids);
    RunWinsNothing(compute, s, prompt, es, ids, []);
    ReportedIsCoverable(RunFrom(compute, s, es), prompt, ids);
  }

  // ----- carrying the work on -----

  /** All that the first choice covered before, the second covers now. */
  ghost predicate CoversOn(s: System, c: Choice, s': System, c': Choice, prompt: bool) {
    && GoodChoice(s', prompt, c')
    && forall id :: Covers(s, prompt, c, id) ==> Covers(s', prompt, c', id)
  }

  ghost function Take(q: (nat, nat), tasks: seq<int>): Event {
    WorkerCallback(q.0, W.GotTasks(q.1, tasks), [])
  }

  /** The slot takes the answer chosen for it. */
  lemma TakeChosen(compute: int -> int, s: System, prompt: bool, c: Choice, q: (nat, nat))
    requires GoodChoice(s, prompt, c) && q in c && c[q] != []
    ensures var e := Take(q, c[q]); var s' := Apply(compute, s, e);
            && Allowed(s, prompt, e) && s'.master == s.master
            && CoversOn(s, c, s', c - {q}, prompt)
            && forall id :: id in c[q] ==> WorksOn(s', prompt, q.0, q.1, id)
  {
    var e, c' := Take(q, c[q]), c - {q};
    var s' := Apply(compute, s, e);
    assert MayReceive(s, prompt, q.0, q.1, c[q]);
    assert Enabled(s, e);
    forall r | r in c' ensures MayReceive(s', prompt, r.0, r.1, c'[r]) {
      assert MayReceive(s, prompt, r.0, r.1, c[r]);
    }
    forall id | id in c[q] ensures WorksOn(s', prompt, q.0, q.1, id) {
    }
    forall id | Covers(s, prompt, c, id) ensures Covers(s', prompt, c', id) {
      if HasReport(s, id) {
        assert s'.requests == s.requests;
        assert HasReport(s', id);
      } else if InWork(s, prompt, id) {
        var p: nat, k: nat :| WorksOn(s, prompt, p, k, id);
        assert WorksOn(s', prompt, p, k, id);
      } else {
        var r :| r in c && id in c[r];
        if r == q { assert WorksOn(s', prompt, q.0, q.1, id); } else { assert r in c' && id in c'[r]; }
      }
    }
  }

  ghost function Done(p: nat, k: nat, s: System): Event
    requires p in s.processes && k < |s.processes[p].state.slots| && s.processes[p].state.slots[k].Computing?
  {
    WorkerCallback(p, W.ComputeDone(k, 0), seq(|s.processes[p].state.slots[k].tasks|, _ => 0))
  }

  lemma DoneReports(compute: int -> int, s: System, prompt: bool, p: nat, k: nat, id: int)
    requires WorksOn(s, prompt, p, k, id)
    ensures HasReport(Apply(compute, s, Done(p, k, s)), id)
  {
    var proc, e := s.processes[p], Done(p, k, s);
    var tasks := proc.state.slots[k].tasks;
    var r := FinishCompute(proc.name, W.Report(tasks, Computed(compute, tasks), e.times));
    assert Enabled(s, e);
    R.ReportCovers(compute, tasks, e.times);
    assert Names(r, id);
    assert r in Sends(compute, proc, e.event, e.times);
    assert Envelope(TicketOf(p, AfterCallback(proc, e.event), k), r) in Apply(compute, s, e).requests;
  }

  /** The slot reports what it works on. */
  lemma FinishWork(compute: int -> int, s: System, prompt: bool, c: Choice, p: nat, k: nat, id: int)
    requires GoodChoice(s, prompt, c) && WorksOn(s, prompt, p, k, id)
    ensures var e := Done(p, k, s); var s' := Apply(compute, s, e);
            && Allowed(s, prompt, e) && s'.master == s.master
            && CoversOn(s, c, s', c, prompt) && HasReport(s', id)
  {
    var e := Done(p, k, s);
    var s' := Apply(compute, s, e);
    assert Enabled(s, e);
    DoneReports(compute, s, prompt, p, k, id);
    forall r | r in c ensures MayReceive(s', prompt, r.0, r.1, c[r]) {
      assert MayReceive(s, prompt, r.0, r.1, c[r]);
    }
    forall x | Covers(s, prompt, c, x) ensures Covers(s', prompt, c, x) {
      if HasReport(s, x) {
        var env :| env in s.requests && Names(env.request, x);
        assert env in s'.requests;
      } else if InWork(s, prompt, x) {
        var p1: nat, k1: nat :| WorksOn(s, prompt, p1, k1, x);
        if p1 == p && k1 == k {
          DoneReports(compute, s, prompt, p, k, x);
        } else {
          assert WorksOn(s', prompt, p1, k1, x);
        }
      }
    }
  }

  /** The master handles the report. */
  lemma Deliver(compute: int -> int, s: System, prompt: bool, c: Choice, m: Master, env: Envelope, id: int)
    requires Inv(compute, s) && GoodChoice(s, prompt, c) && s.master == Some(m) && id in m.running
    requires env in s.requests && Names(env.request, id)
    ensures var s' := Apply(compute, s, MasterHandle(env, 0));
            && CoversOn(s, c, s', c, prompt)
            && s'.master.Some? && Advanced(m, s'.master.value, id)
  {
    var w, rs := env.request.worker, env.request.results;
    MI.ReportSettles(m, w, rs, 0);
    ReportConcludes(m, w, rs, 0);
    HandleCoversOn(compute, s, prompt, c, env);
  }

  /** The task is no longer running, none has been added, and Finish has been called if all is done. */
  ghost predicate Advanced(m: Master, m': Master, id: int) {
    && m'.running <= m.running - {id}
    && m'.pending == m.pending && m'.queue == m.queue
    && (AllDone(m') ==> m'.finishes != [])
  }

  lemma HandleCoversOn(compute: int -> int, s: System, prompt: bool, c: Choice, env: Envelope)
    requires Enabled(s, MasterHandle(env, 0)) && GoodChoice(s, prompt, c)
    ensures CoversOn(s, c, Apply(compute, s, MasterHandle(env, 0)), c, prompt)
  {
    var s' := Apply(compute, s, MasterHandle(env, 0));
    assert s'.requests == s.requests && s'.processes == s.processes && s.answers <= s'.answers;
    forall r | r in c ensures MayReceive(s', prompt, r.0, r.1, c[r]) {
      assert MayReceive(s, prompt, r.0, r.1, c[r]);
    }
    forall x | Covers(s, prompt, c, x) ensures Covers(s', prompt, c, x) {
      if HasReport(s, x) {
        assert HasReport(s', x);
      } else if InWork(s, prompt, x) {
        var p: nat, k: nat :| WorksOn(s, prompt, p, k, x);
        assert WorksOn(s', prompt, p, k, x);
      }
    }
  }

  lemma ReportConcludes(m: Master, w: string, rs: seq<TaskResult>, now: int)
    requires rs != []
    ensures var m' := Handle(m, FinishCompute(w, rs), now);
            m'.queue == m.queue && (AllDone(m') ==> m'.finishes != [])
  {
    var m0 := WithWorker(m, w);
    MI.AcceptAllWork(m0, rs);
    MI.ReportFields(m0, w, rs, now);
  }

  /** A continuation of s that follows the rules, keeps the cover, and leaves the master alone. */
  ghost predicate Leads(compute: int -> int, s: System, c: Choice, prompt: bool, es: seq<Event>, c': Choice) {
    && Orderly(compute, s, prompt, es)
    && CoversOn(s, c, RunFrom(compute, s, es), c', prompt)
  }

  lemma LeadsOn(compute: int -> int, s: System, c: Choice, prompt: bool, a: seq<Event>, c1: Choice,
                e: Event, c2: Choice)
    requires Leads(compute, s, c, prompt, a, c1)
    requires Allowed(RunFrom(compute, s, a), prompt, e)
    requires var s1 := RunFrom(compute, s, a); CoversOn(s1, c1, Apply(compute, s1, e), c2, prompt)
    ensures Leads(compute, s, c, prompt, a + [e], c2)
    ensures RunFrom(compute, s, a + [e]) == Apply(compute, RunFrom(compute, s, a), e)
  {
    Extends(compute, s, prompt, a, e);
    var s1 := RunFrom(compute, s, a);
    CoversTransitive(s, c, s1, c1, Apply(compute, s1, e), c2, prompt);
  }

  lemma CoversTransitive(s: System, c: Choice, s1: System, c1: Choice, s2: System, c2: Choice, prompt: bool)
    requires CoversOn(s, c, s1, c1, prompt) && CoversOn(s1, c1, s2, c2, prompt)
    ensures CoversOn(s, c, s2, c2, prompt)
  {
  }

  /** A covered task can be brought to be reported, without the master. */
  lemma BringToReport(compute: int -> int, s: System, prompt: bool, c: Choice, id: int)
      returns (es: seq<Event>, c': Choice)
    requires GoodChoice(s, prompt, c) && Covers(s, prompt, c, id)
    ensures Leads(compute, s, c, prompt, es, c')
    ensures RunFrom(compute, s, es).master == s.master && HasReport(RunFrom(compute, s, es), id)
  {
    es, c' := [], c;
    if !HasReport(s, id) {
      var s1, p: nat, k: nat := s, 0, 0;
      if InWork(s, prompt, id) {
        p, k :| WorksOn(s, prompt, p, k, id);
      } else {
        var q :| q in c && id in c[q];
        TakeChosen(compute, s, prompt, c, q);
        LeadsOn(compute, s, c, prompt, [], c, Take(q, c[q]), c - {q});
        es, c', p, k := [] + [Take(q, c[q])], c - {q}, q.0, q.1;
        s1 := RunFrom(compute, s, es);
      }
      FinishWork(compute, s1, prompt, c', p, k, id);
      LeadsOn(compute, s, c, prompt, es, c', Done(p, k, s1), c');
      es := es + [Done(p, k, s1)];
    }
  }

  /** A running task that is covered can be settled, and the others stay covered. */
  lemma Settle(compute: int -> int, s: System, prompt: bool, c: Choice, m: Master, id: int)
      returns (es: seq<Event>, c': Choice)
    requires Inv(compute, s) && GoodChoice(s, prompt, c) && s.master == Some(m)
    requires id in m.running && Covers(s, prompt, c, id)
    ensures Leads(compute, s, c, prompt, es, c')
    ensures RunFrom(compute, s, es).master.Some? && Advanced(m, RunFrom(compute, s, es).master.value, id)
  {
    es, c' := BringToReport(compute, s, prompt, c, id);
    var s1 := RunFrom(compute, s, es);
    RunKeeps(compute, s, es);
    var env :| env in s1.requests && Names(env.request, id);
    Deliver(compute, s1, prompt, c', m, env, id);
    LeadsOn(compute, s, c, prompt, es, c', MasterHandle(env, 0), c');
    es := es + [MasterHandle(env, 0)];
  }

  lemma HasElement(a: set<int>)
    ensures a == {} || exists x :: x in a
  {
    if forall x :: x !in a { assert a == {}; }
  }

  lemma {:induction false} SubsetSize(a: set<int>, b: set<int>)
    requires a <= b
    ensures |a| <= |b|
  {
    if a == {} {
    } else {
      HasElement(a);
      var x :| x in a;
      SubsetSize(a - {x}, b - {x});
    }
  }

  lemma {:induction false} SettleAll(compute: int -> int, s: System, prompt: bool, c: Choice, m: Master)
      returns (es: seq<Event>)
    requires Inv(compute, s) && s.master == Some(m) && CoversAll(s, prompt, c, m.running)
    ensures Orderly(compute, s, prompt, es)
    ensures var s' := RunFrom(compute, s, es);
            && s'.master.Some?
            && var m' := s'.master.value;
               && m'.running == {} && m'.pending == m.pending && m'.queue == m.queue
               && (m.running != {} && AllDone(m') ==> m'.finishes != [])
    decreases |m.running|
  {
    if m.running == {} {
      es := [];
    } else {
      HasElement(m.running);
      var id :| id in m.running;
      var c1;
      es, c1 := Settle(compute, s, prompt, c, m, id);
      var s1 := RunFrom(compute, s, es);
      var m1 := s1.master.value;
      RunKeeps(compute, s, es);
      SubsetSize(m1.running, m.running - {id});
      if m1.running != {} {
        var rest := SettleAll(compute, s1, prompt, c1, m1);
        OrderlyConcat(compute, s, prompt, es, rest);
        R.RunConcat(compute, s, es, rest);
        es := es + rest;
      }
    }
  }

  // ----- the pending tasks -----

  lemma NoExitBefore(compute: int -> int, s: System, p: nat, m: Master)
    requires MI.Inv(m, compute) && s.master == Some(m) && m.running == {} && m.pending != [] && p !in s.processes
    ensures var es := R.Completion(compute, p, m.pending);
            var s2 := Apply(compute, Apply(compute, s, es[0]), es[1]);
            var s3 := Apply(compute, s2, es[2]);
            && p in s2.processes && !s2.processes[p].state.exitRequested
            && p in s3.processes && !s3.processes[p].state.exitRequested
  {
    var es := R.Completion(compute, p, m.pending);
    R.Arrives(compute, s, p, |m.pending|);
    R.GetsEverything(compute, s, p, m);
    assert Apply(compute, Apply(compute, s, es[0]), es[1]).processes == Apply(compute, s, es[0]).processes;
  }

  lemma CompletionIsOrderly(compute: int -> int, s: System, prompt: bool, p: nat, m: Master)
    requires MI.Inv(m, compute) && s.master == Some(m) && m.running == {} && m.pending != [] && p !in s.processes
    ensures Orderly(compute, s, prompt, R.Completion(compute, p, m.pending))
  {
    var es := R.Completion(compute, p, m.pending);
    NoExitBefore(compute, s, p, m);
    var es1, es2, es3, es4 := [es[0]], [es[0], es[1]], [es[0], es[1], es[2]], [es[0], es[1], es[2], es[3]];
    OneEvent(compute, s, prompt, es[0]);
    Extends(compute, s, prompt, es1, es[1]);
    assert es1 + [es[1]] == es2;
    Extends(compute, s, prompt, es2, es[2]);
    assert es2 + [es[2]] == es3;
    Extends(compute, s, prompt, es3, es[3]);
    assert es3 + [es[3]] == es4;
    Extends(compute, s, prompt, es4, es[4]);
    assert es4 + [es[4]] == es;
  }

  lemma Extends(compute: int -> int, s: System, prompt: bool, a: seq<Event>, e: Event)
    requires Orderly(compute, s, prompt, a) && Allowed(RunFrom(compute, s, a), prompt, e)
    ensures Orderly(compute, s, prompt, a + [e])
    ensures RunFrom(compute, s, a + [e]) == Apply(compute, RunFrom(compute, s, a), e)
  {
    assert (a + [e])[..|a|] == a;
  }

  /** With nothing running, the pending tasks can be carried to Finish by a new worker. */
  lemma FinishPending(compute: int -> int, s: System, prompt: bool, m: Master) returns (es: seq<Event>)
    requires Inv(compute, s) && s.master == Some(m) && m.running == {} && m.pending != []
    ensures Orderly(compute, s, prompt, es)
    ensures RunFrom(compute, s, es).master.Some? && RunFrom(compute, s, es).master.value.finishes != []
  {
    var p := R.FreshNumber(s.processes.Keys);
    R.CompletionFinishes(compute, s, p, m);
    CompletionIsOrderly(compute, s, prompt, p, m);
    es := R.Completion(compute, p, m.pending);
  }

  lemma CoveredFinishes(compute: int -> int, s: System, prompt: bool, m: Master) returns (es: seq<Event>)
    requires Inv(compute, s) && s.master == Some(m) && !AllDone(m) && Coverable(s, prompt, m.running)
    ensures Orderly(compute, s, prompt, es)
    ensures RunFrom(compute, s, es).master.Some? && RunFrom(compute, s, es).master.value.finishes != []
  {
    var c :| CoversAll(s, prompt, c, m.running);
    es := SettleAll(compute, s, prompt, c, m);
    if m.pending != [] {
      var s1 := RunFrom(compute, s, es);
      RunKeeps(compute, s, es);
      var rest := FinishPending(compute, s1, prompt, s1.master.value);
      OrderlyConcat(compute, s, prompt, es, rest);
      R.RunConcat(compute, s, es, rest);
      es := es + rest;
    }
  }

  // ----- the theorem -----

  /**
   After any run, with work left and Finish not yet called: Finish can still be
   reached without starting the master again if and only if one answer can be
   chosen for each waiting slot, so that every running task has been reported,
   is being computed, or is in a chosen answer. One worker that dies, or one
   slot that gives up waiting, is enough to put Finish out of reach.
   */
  lemma FinishInReachExactly(compute: int -> int, before: seq<Event>, prompt: bool)
    requires Run(compute, before).master.Some?
    requires !AllDone(Run(compute, before).master.value) && Run(compute, before).master.value.finishes == []
    ensures var s := Run(compute, before);
            FinishInReach(compute, s, prompt) <==> Coverable(s, prompt, s.master.value.running)
  {
    RunKeeps(compute, INITIAL, before);
    var s := Run(compute, before);
    if FinishInReach(compute, s, prompt) {
      InReachIsCoverable(compute, s, prompt);
    }
    if Coverable(s, prompt, s.master.value.running) {
      var es := CoveredFinishes(compute, s, prompt, s.master.value);
      assert FinishInReach(compute, s, prompt);
    }
  }

  lemma LostIsOutOfReach(compute: int -> int, before: seq<Event>, prompt: bool, id: int)
    requires Lost(Run(compute, before), prompt, id) && Run(compute, before).master.value.finishes == []
    ensures !FinishInReach(compute, Run(compute, before), prompt)
  {
    var s := Run(compute, before);
    FinishInReachExactly(compute, before, prompt);
    CoverableParts(s, prompt, s.master.value.running, {id});
  }

  lemma CoverableParts(s: System, prompt: bool, ids: set<int>, some: set<int>)
    requires some <= ids
    ensures Coverable(s, prompt, ids) ==> Coverable(s, prompt, some)
  {
    if Coverable(s, prompt, ids) {
      var c :| CoversAll(s, prompt, c, ids);
      assert CoversAll(s, prompt, c, some);
    }
  }
}
