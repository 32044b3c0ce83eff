/**
 The protocol is never stuck for good: after any run, a restart can be carried
 through to Finish. The master that has been started again has nothing running, so
 one new worker suffices: it asks for everything that is pending, gets it in one
 batch, computes it, and reports it, and the report completes the work. Here this is
 followed step by step, on the master's side and on the worker's side, and put
 together into the five events that lead to Finish from any such master.
 */
module Recovery {
  import opened Common
  import opened Tasks
  import opened MasterModel
  import opened Protocol
  import MI = MasterInvariant
  import W = WorkerModel

  // ----- the master's side: one request for everything, one report of it -----

  lemma AskForEverything(compute: int -> int, m: Master, w: string, now: int)
    requires MI.Inv(m, compute) && m.running == {}
    ensures var m1 := Handle(m, GetTask(w, |m.pending|), now);
            && ReplyTo(m, GetTask(w, |m.pending|)) == TaskBatch(m.pending)
            && MI.Inv(m1, compute) && m1.queue == m.queue && m1.pending == []
            && m1.running == (set id | id in m.pending)
  {
    var n := |m.pending|;
    var m0 := WithWorker(m, w);
    assert m.pending[..n] == m.pending;
    MI.HandOutTakesPrefix(m0, w, Max(n, 1));
    MI.HandOutRuns(m0, w, Max(n, 1));
    MI.HandleKeeps(m, GetTask(w, n), now, compute);
  }

  lemma ReportEverything(compute: int -> int, m: Master, w: string, rs: seq<TaskResult>, now: int)
    requires MI.Inv(m, compute) && m.pending == [] && m.running <= IdSet(rs) && Truthful(compute, rs) && rs != []
    ensures Handle(m, FinishCompute(w, rs), now).finishes != [] && Handle(m, FinishCompute(w, rs), now).queue == m.queue
  {
    MI.WithWorkerKeeps(m, w, compute);
    var m0 := WithWorker(m, w);
    MI.AcceptAllKeeps(m0, rs, compute);
    MI.AcceptAllWork(m0, rs);
    var m1 := DropReported(AcceptAll(m0, rs), w, IdSet(rs));
    assert AllDone(m1);
  }

  lemma ReportCovers(compute: int -> int, tasks: seq<int>, times: seq<int>)
    requires |tasks| == |times|
    ensures var rs := W.Report(tasks, Computed(compute, tasks), times);
            Truthful(compute, rs) && (set id | id in tasks) <= IdSet(rs)
  {
    var rs := W.Report(tasks, Computed(compute, tasks), times);
    forall id | id in tasks ensures id in IdSet(rs) {
      var k :| 0 <= k < |tasks| && tasks[k] == id;
      assert rs[k].id == id;
    }
  }

  // ----- the steps of one new worker process -----

  const NAME := "w"

  lemma Arrives(compute: int -> int, s: System, p: nat, n: nat)
    requires p !in s.processes && n > 0
    ensures var s' := Apply(compute, s, WorkerStart(p, NAME, 1, n));
            && s'.master == s.master && p in s'.processes
            && s'.processes[p] == NewProcess(NAME, 1, n)
            && Envelope(Ticket(p, 0, 0), GetTask(NAME, n)) in s'.requests
  {
    assert Envelope(Ticket(p, 0, 0), GetTask(NAME, n)) in FirstRequests(p, NAME, 1, n);
  }

  lemma Asks(compute: int -> int, s: System, p: nat, m: Master)
    requires MI.Inv(m, compute) && s.master == Some(m) && m.running == {}
    requires Envelope(Ticket(p, 0, 0), GetTask(NAME, |m.pending|)) in s.requests
    ensures var s' := Apply(compute, s, MasterHandle(Envelope(Ticket(p, 0, 0), GetTask(NAME, |m.pending|)), 0));
            && s'.master == Some(Handle(m, GetTask(NAME, |m.pending|), 0))
            && (Ticket(p, 0, 0), TaskBatch(m.pending)) in s'.answers && s'.processes == s.processes
  {
    AskForEverything(compute, m, NAME, 0);
  }

  lemma Takes(compute: int -> int, s: System, p: nat, n: nat, tasks: seq<int>)
    requires p in s.processes && s.processes[p] == NewProcess(NAME, 1, n)
    requires (Ticket(p, 0, 0), TaskBatch(tasks)) in s.answers && tasks != []
    ensures var s' := Apply(compute, s, WorkerCallback(p, W.GotTasks(0, tasks), []));
            && s'.master == s.master && p in s'.processes && s'.processes[p].alive && s'.processes[p].name == NAME
            && s'.processes[p].asked == [0] && !s'.processes[p].state.exitRequested
            && s'.processes[p].state.slots == [W.Computing(tasks)]
  {
  }

  lemma Reports(compute: int -> int, s: System, p: nat, tasks: seq<int>, times: seq<int>)
    requires p in s.processes && s.processes[p].alive && s.processes[p].name == NAME
    requires s.processes[p].asked == [0]
    requires s.processes[p].state.slots == [W.Computing(tasks)] && |times| == |tasks|
    ensures var s' := Apply(compute, s, WorkerCallback(p, W.ComputeDone(0, 0), times));
            && s'.master == s.master
            && var report := FinishCompute(NAME, W.Report(tasks, Computed(compute, tasks), times));
               Envelope(Ticket(p, 0, 1), report) in s'.requests
  {
    var e := WorkerCallback(p, W.ComputeDone(0, 0), times);
    assert Enabled(s, e);
    var r := FinishCompute(NAME, W.Report(tasks, Computed(compute, tasks), times));
    assert r in Sends(compute, s.processes[p], e.event, times);
    assert TicketOf(p, AfterCallback(s.processes[p], e.event), 0) == Ticket(p, 0, 1);
  }

  /** The five events that complete the work of a master with nothing running. */
  ghost function Completion(compute: int -> int, p: nat, tasks: seq<int>): seq<Event> {
    var times := seq(|tasks|, _ => 0);
    [WorkerStart(p, NAME, 1, |tasks|),
     MasterHandle(Envelope(Ticket(p, 0, 0), GetTask(NAME, |tasks|)), 0),
     WorkerCallback(p, W.GotTasks(0, tasks), []),
     WorkerCallback(p, W.ComputeDone(0, 0), times),
     MasterHandle(Envelope(Ticket(p, 0, 1), FinishCompute(NAME, W.Report(tasks, Computed(compute, tasks), times))), 0)]
  }

  lemma RunTake(compute: int -> int, s: System, es: seq<Event>, k: nat)
    requires k < |es|
    ensures RunFrom(compute, s, es[..k+1]) == Apply(compute, RunFrom(compute, s, es[..k]), es[k])
  {
    assert es[..k+1][..k] == es[..k];
  }

  lemma CompletionFinishes(compute: int -> int, s: System, p: nat, m: Master)
    requires MI.Inv(m, compute) && s.master == Some(m) && m.running == {} && m.pending != [] && p !in s.processes
    ensures var s' := RunFrom(compute, s, Completion(compute, p, m.pending));
            s'.master.Some? && s'.master.value.queue == m.queue && s'.master.value.finishes != []
  {
    var es := Completion(compute, p, m.pending);
    forall k | 0 <= k < 5
      ensures RunFrom(compute, s, es[..k+1]) == Apply(compute, RunFrom(compute, s, es[..k]), es[k])
    {
      RunTake(compute, s, es, k);
    }
    assert es[..0] == [] && es[..5] == es;
    GetsEverything(compute, s, p, m);
    DoesEverything(compute, RunFrom(compute, s, es[..3]), p, m);
  }

  lemma GetsEverything(compute: int -> int, s: System, p: nat, m: Master)
    requires MI.Inv(m, compute) && s.master == Some(m) && m.running == {} && m.pending != [] && p !in s.processes
    ensures var es := Completion(compute, p, m.pending);
            var s' := Apply(compute, Apply(compute, Apply(compute, s, es[0]), es[1]), es[2]);
            && s'.master == Some(Handle(m, GetTask(NAME, |m.pending|), 0))
            && p in s'.processes && s'.processes[p].alive && s'.processes[p].name == NAME
            && s'.processes[p].asked == [0] && !s'.processes[p].state.exitRequested
            && s'.processes[p].state.slots == [W.Computing(m.pending)]
  {
    var n := |m.pending|;
    Arrives(compute, s, p, n);
    var s1 := Apply(compute, s, WorkerStart(p, NAME, 1, n));
    Asks(compute, s1, p, m);
    Takes(compute, Apply(compute, s1, MasterHandle(Envelope(Ticket(p, 0, 0), GetTask(NAME, n)), 0)), p, n, m.pending);
  }

  lemma DoesEverything(compute: int -> int, s: System, p: nat, m: Master)
    requires MI.Inv(m, compute) && m.running == {} && m.pending != []
    requires s.master == Some(Handle(m, GetTask(NAME, |m.pending|), 0))
    requires p in s.processes && s.processes[p].alive && s.processes[p].name == NAME
    requires s.processes[p].asked == [0] && s.processes[p].state.slots == [W.Computing(m.pending)]
    ensures var es := Completion(compute, p, m.pending);
            var s' := Apply(compute, Apply(compute, s, es[3]), es[4]);
            s'.master.Some? && s'.master.value.queue == m.queue && s'.master.value.finishes != []
  {
    var es, times := Completion(compute, p, m.pending), seq(|m.pending|, _ => 0);
    Reports(compute, s, p, m.pending, times);
    AskForEverything(compute, m, NAME, 0);
    ReportCovers(compute, m.pending, times);
    ReportEverything(compute, s.master.value, NAME, es[4].envelope.request.results, 0);
  }

  lemma {:induction false} FreshNumber(ps: set<nat>) returns (p: nat)
    ensures forall q :: q in ps ==> q < p
    decreases |ps|
  {
    if ps == {} {
      p := 0;
    } else {
      var q :| q in ps;
      var r := FreshNumber(ps - {q});
      p := if r <= q then q + 1 else r;
      assert forall x :: x in ps ==> x == q || x in ps - {q};
    }
  }

  lemma {:induction false} RunConcat(compute: int -> int, s: System, a: seq<Event>, b: seq<Event>)
    ensures RunFrom(compute, s, a + b) == RunFrom(compute, RunFrom(compute, s, a), b)
  {
    if b == [] {
      assert a + b == a;
    } else {
      assert (a + b)[..|a + b|-1] == a + b[..|b|-1];
      RunConcat(compute, s, a, b[..|b|-1]);
    }
  }

  lemma StartIsReady(compute: int -> int, queue: seq<int>, file: Option<Snapshot>)
    requires NoDup(queue) && (file.Some? ==> MI.TrueSnapshot(file.value, compute))
    ensures var m := Start(queue, file, true);
            MI.Inv(m, compute) && m.queue == queue && m.running == {} && (m.pending == [] ==> m.finishes != [])
  {
    MI.StartKeeps(queue, file, true, compute);
  }

  /** After any run, a restart from any written file, or from none, can still be carried through to Finish. */
  lemma RecoveryIsPossible(compute: int -> int, es: seq<Event>, queue: seq<int>, file: Option<Snapshot>)
      returns (more: seq<Event>)
    requires NoDup(queue) && (file.Some? ==> file.value in Run(compute, es).files)
    ensures |more| > 0 && more[0] == MasterStart(queue, file, true)
    ensures var s := Run(compute, es + more);
            s.master.Some? && s.master.value.queue == queue && s.master.value.finishes != []
  {
    more := [MasterStart(queue, file, true)];
    RunKeeps(compute, INITIAL, es);
    StartIsReady(compute, queue, file);
    var s1 := RunFrom(compute, Run(compute, es), more);
    RunTake(compute, Run(compute, es), more, 0);
    assert more[..0] == [] && more[..1] == more;
    assert s1 == Apply(compute, Run(compute, es), more[0]);
    var m := Start(queue, file, true);
    if m.pending != [] {
      var p := FreshNumber(s1.processes.Keys);
      CompletionFinishes(compute, s1, p, m);
      var rest := Completion(compute, p, m.pending);
      RunConcat(compute, Run(compute, es), more, rest);
      more := more + rest;
    }
    RunConcat(compute, INITIAL, es, more);
  }
}
