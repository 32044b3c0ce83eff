/**
 The whole system: one master process at a time, any number of worker
 processes, and a network that may lose, repeat and reorder messages.
 */
module Protocol {
  import opened Common
  import opened Tasks
  import opened MasterModel
  import MI = MasterInvariant
  import W = WorkerModel

  /** A worker process; its number is never used again. `asked` numbers each slot's latest request. */
  datatype Process =
    Process(name: string, batchSize: int, threads: nat, state: W.Worker, asked: seq<nat>, alive: bool)

  /** What names a request: it stands for the socket of its own that the request is sent on. */
  datatype Ticket = Ticket(process: nat, slot: nat, serial: nat)

  datatype Envelope = Envelope(ticket: Ticket, request: Request)

  /**
   The network is the set of all messages ever sent: any of them may be delivered
   any number of times, at any later moment, or never; a reply only reaches the
   slot that still waits for the answer to that very request. The master may stop
   or be started again at any moment, from no state file or from any file it or an
   earlier master wrote; worker processes may start and die at any moment.
   */
  datatype System = System(
    master: Option<Master>,
    files: set<Snapshot>,               // every state file ever written
    processes: map<nat, Process>,
    requests: set<Envelope>,            // every request ever sent
    answers: set<(Ticket, Reply)>,      // every reply ever sent, with the request it answers
    handed: seq<int>,                   // the get_task replies of the present master, concatenated
    startPending: seq<int>)             // the pending queue the present master started with

  datatype Event =
    | MasterStart(queue: seq<int>, file: Option<Snapshot>, readState: bool)
    | MasterHandle(envelope: Envelope, now: int)
    | MasterStop
    | WorkerStart(p: nat, name: string, threads: nat, batchSize: int)
    | WorkerCallback(p: nat, event: W.WorkerEvent, times: seq<int>)
    | WorkerStop(p: nat)

  const INITIAL := System(None, {}, map[], {}, {}, [], [])

  // ----- steps -----

  /** The request that slot k of process p waits for. */
  function TicketOf(p: nat, proc: Process, k: nat): Ticket
    requires k < |proc.asked|
  {
    Ticket(p, k, proc.asked[k])
  }

  ghost predicate Enabled(s: System, e: Event) {
    match e
    case MasterStart(q, f, _) => NoDup(q) && (f.Some? ==> f.value in s.files)
    case MasterHandle(env, _) => s.master.Some? && env in s.requests
    case MasterStop => s.master.Some?
    case WorkerStart(p, _, _, _) => p !in s.processes
    case WorkerStop(p) => p in s.processes
    case WorkerCallback(p, we, times) =>
      && p in s.processes && s.processes[p].alive && W.Enabled(s.processes[p].state, we)
      && we.slot < |s.processes[p].asked|
      && (we.GotTasks? ==> (TicketOf(p, s.processes[p], we.slot), TaskBatch(we.tasks)) in s.answers)
      && (we.FinishAccepted? ==> (TicketOf(p, s.processes[p], we.slot), Acknowledged) in s.answers)
      && (we.ComputeDone? ==> |times| == |s.processes[p].state.slots[we.slot].tasks|)
  }

  function Computed(compute: int -> int, tasks: seq<int>): (rs: seq<int>)
    ensures |rs| == |tasks|
  {
    seq(|tasks|, k requires 0 <= k < |tasks| => compute(tasks[k]))
  }

  /** What a worker callback sends. */
  function Sends(compute: int -> int, proc: Process, e: W.WorkerEvent, times: seq<int>): set<Request>
    requires W.Enabled(proc.state, e)
    requires e.ComputeDone? ==> |times| == |proc.state.slots[e.slot].tasks|
  {
    match e
    case ComputeDone(i, _) =>
      var tasks := proc.state.slots[i].tasks;
      {FinishCompute(proc.name, W.Report(tasks, Computed(compute, tasks), times))}
    case FinishAccepted(i) => {GetTask(proc.name, W.RequestedCount(proc.batchSize, proc.state.slots[i].suggested))}
    case _ => {}
  }

  /** The numbers of the latest requests after a callback: one that sends a request counts on. */
  function Asked(proc: Process, e: W.WorkerEvent): seq<nat>
    requires e.slot < |proc.asked|
  {
    if e.ComputeDone? || e.FinishAccepted? then proc.asked[e.slot := proc.asked[e.slot] + 1] else proc.asked
  }

  function AfterCallback(proc: Process, e: W.WorkerEvent): Process
    requires e.slot < |proc.asked|
  {
    proc.(state := W.Step(proc.state, e, proc.batchSize), asked := Asked(proc, e))
  }

  function FromWorker(t: Ticket, rs: set<Request>): set<Envelope> {
    set r | r in rs :: Envelope(t, r)
  }

  /** Start sends one request for each thread. */
  function FirstRequests(p: nat, name: string, threads: nat, batchSize: int): set<Envelope> {
    set k: nat | k < threads :: Envelope(Ticket(p, k, 0), GetTask(name, W.RequestedCount(batchSize, 1)))
  }

  function FileOf(m: Master): set<Snapshot> {
    if m.file.Some? then {m.file.value} else {}
  }

  function NewProcess(name: string, threads: nat, batchSize: int): Process {
    Process(name, batchSize, threads, W.StartWorker(threads), seq(threads, _ => 0), true)
  }

  /** One step of the system; an event that cannot happen changes nothing. */
  ghost function Apply(compute: int -> int, s: System, e: Event): System {
    if !Enabled(s, e) then s else
    match e
    case MasterStart(q, f, readState) =>
      var m := Start(q, f, readState);
      s.(master := Some(m), handed := [], startPending := m.pending)
    case MasterHandle(env, now) =>
      var m := s.master.value;
      var m' := Handle(m, env.request, now);
      var reply := ReplyTo(m, env.request);
      s.(master := Some(m'), files := s.files + FileOf(m'), answers := s.answers + {(env.ticket, reply)},
         handed := s.handed + if reply.TaskBatch? then reply.tasks else [])
    case MasterStop => s.(master := None)
    case WorkerStart(p, name, threads, batchSize) =>
      s.(processes := s.processes[p := NewProcess(name, threads, batchSize)],
         requests := s.requests + FirstRequests(p, name, threads, batchSize))
    case WorkerStop(p) => s.(processes := s.processes[p := s.processes[p].(alive := false)])
    case WorkerCallback(p, we, times) =>
      var proc := s.processes[p];
      var proc' := AfterCallback(proc, we);
      s.(processes := s.processes[p := proc'],
         requests := s.requests + FromWorker(TicketOf(p, proc', we.slot), Sends(compute, proc, we, times)))
  }

  ghost function RunFrom(compute: int -> int, s: System, es: seq<Event>): System {
    if es == [] then s else Apply(compute, RunFrom(compute, s, es[..|es|-1]), es[|es|-1])
  }

  ghost function Run(compute: int -> int, es: seq<Event>): System {
    RunFrom(compute, INITIAL, es)
  }

  // ----- the invariant -----

  /** The most tasks one request may be answered with. */
  function Limit(batchSize: int): int {
    if batchSize > 0 then batchSize else 100
  }

  ghost predicate GoodProcess(proc: Process) {
    && W.WorkerInv(proc.state)
    && |proc.state.slots| == |proc.asked| == proc.threads
    && forall k :: 0 <= k < proc.threads ==>
         match proc.state.slots[k]
         case Computing(tasks) => 1 <= |tasks| <= Limit(proc.batchSize)
         case Finishing(n) => 1 <= n <= 100
         case _ => true
  }

  /** A ticket that some slot has been given. */
  ghost predicate Issued(processes: map<nat, Process>, t: Ticket) {
    && t.process in processes && t.slot < |processes[t.process].asked|
    && t.serial <= processes[t.process].asked[t.slot]
  }

  ghost predicate GoodAnswer(processes: map<nat, Process>, a: (Ticket, Reply)) {
    && Issued(processes, a.0)
    && (a.1.TaskBatch? ==> |a.1.tasks| <= Limit(processes[a.0.process].batchSize))
  }

  ghost predicate GoodRequest(compute: int -> int, processes: map<nat, Process>, env: Envelope) {
    && Issued(processes, env.ticket)
    && env.request.worker == processes[env.ticket.process].name
    && match env.request
       case GetTask(_, n) => 1 <= n <= Limit(processes[env.ticket.process].batchSize)
       case FinishCompute(_, rs) => Truthful(compute, rs)
       case OtherRequest(_) => true
  }

  ghost predicate GoodMaster(compute: int -> int, s: System) {
    s.master.Some? ==>
      && MI.Inv(s.master.value, compute)
      && s.startPending == s.handed + s.master.value.pending && NoDup(s.startPending)
  }

  ghost predicate Inv(compute: int -> int, s: System) {
    && GoodMaster(compute, s)
    && (forall f :: f in s.files ==> MI.TrueSnapshot(f, compute))
    && (forall p :: p in s.processes ==> GoodProcess(s.processes[p]))
    && (forall env :: env in s.requests ==> GoodRequest(compute, s.processes, env))
    && (forall a :: a in s.answers ==> GoodAnswer(s.processes, a))
  }

  lemma {:induction false} StartedMaster(compute: int -> int, queue: seq<int>, file: Option<Snapshot>, readState: bool)
    requires NoDup(queue) && (file.Some? ==> MI.TrueSnapshot(file.value, compute))
    ensures MI.Inv(Start(queue, file, readState), compute) && NoDup(Start(queue, file, readState).pending)
  {
    MI.StartKeeps(queue, file, readState, compute);
    MI.Partition(Start(queue, file, readState), compute);
  }

  lemma {:induction false} MasterStartKeeps(compute: int -> int, s: System, e: Event)
    requires Inv(compute, s) && Enabled(s, e) && e.MasterStart?
    ensures Inv(compute, Apply(compute, s, e))
  {
    var m := Start(e.queue, e.file, e.readState);
    StartedMaster(compute, e.queue, e.file, e.readState);
    var s' := Apply(compute, s, e);
    assert s' == s.(master := Some(m), handed := [], startPending := m.pending);
    assert [] + m.pending == m.pending;
    assert GoodMaster(compute, s');
  }

  lemma {:induction false} BatchIsPrefix(m: Master, w: string, n: int, now: int)
    ensures m.pending == ReplyTo(m, GetTask(w, n)).tasks + Handle(m, GetTask(w, n), now).pending
  {
    MI.HandOutTakesPrefix(WithWorker(m, w), w, Max(n, 1));
  }

  lemma {:induction false} ReportLeavesPending(m: Master, w: string, rs: seq<TaskResult>, now: int)
    ensures Handle(m, FinishCompute(w, rs), now).pending == m.pending
  {
    MI.AcceptAllWork(WithWorker(m, w), rs);
    MI.ReportFields(WithWorker(m, w), w, rs, now);
  }

  /** The tasks that the reply carries. */
  function Taken(m: Master, req: Request): seq<int> {
    if req.GetTask? then ReplyTo(m, req).tasks else []
  }

  /** The pending queue only ever loses the prefix that the reply carries. */
  lemma {:induction false} ReplyIsPrefix(m: Master, req: Request, now: int)
    ensures m.pending == Taken(m, req) + Handle(m, req, now).pending
  {
    if req.GetTask? {
      BatchIsPrefix(m, req.worker, req.maxTaskCount, now);
    } else if req.FinishCompute? {
      ReportLeavesPending(m, req.worker, req.results, now);
    }
  }

  lemma {:induction false} MasterHandleKeeps(compute: int -> int, s: System, e: Event)
    requires Inv(compute, s) && Enabled(s, e) && e.MasterHandle?
    ensures Inv(compute, Apply(compute, s, e))
  {
    var m, env := s.master.value, e.envelope;
    assert GoodRequest(compute, s.processes, env);
    MI.HandleKeeps(m, env.request, e.now, compute);
    HandedIsPrefix(compute, s, e);
    var s' := Apply(compute, s, e);
    assert s'.processes == s.processes && s'.requests == s.requests;
    forall a | a in s'.answers ensures GoodAnswer(s'.processes, a) {
      if a in s.answers { assert GoodAnswer(s.processes, a); }
    }
  }

  lemma {:induction false} HandedIsPrefix(compute: int -> int, s: System, e: Event)
    requires e.MasterHandle? && Enabled(s, e) && s.startPending == s.handed + s.master.value.pending
    ensures var s' := Apply(compute, s, e); s'.startPending == s.startPending == s'.handed + s'.master.value.pending
  {
    var m, req := s.master.value, e.envelope.request;
    ReplyIsPrefix(m, req, e.now);
    Regroup(s.handed, Taken(m, req), Handle(m, req, e.now).pending);
  }

  lemma Regroup(a: seq<int>, b: seq<int>, c: seq<int>)
    ensures a + (b + c) == a + b + c
  {
  }

  lemma WorkerStartKeeps(compute: int -> int, s: System, e: Event)
    requires Inv(compute, s) && Enabled(s, e) && e.WorkerStart?
    ensures Inv(compute, Apply(compute, s, e))
  {
    W.StartKeepsWorker(e.threads);
    var s' := Apply(compute, s, e);
    forall env | env in s'.requests ensures GoodRequest(compute, s'.processes, env) {
      if env in s.requests { assert GoodRequest(compute, s.processes, env); }
    }
    forall a | a in s'.answers ensures GoodAnswer(s'.processes, a) { assert GoodAnswer(s.processes, a); }
  }

  lemma ProcessKeeps(compute: int -> int, s: System, e: Event)
    requires Inv(compute, s) && Enabled(s, e) && e.WorkerCallback?
    ensures GoodProcess(Apply(compute, s, e).processes[e.p])
  {
    var proc := s.processes[e.p];
    W.StepKeepsWorker(proc.state, e.event, proc.batchSize);
    if e.event.ComputeDone? {
      W.SuggestedSizeRange(proc.batchSize, |proc.state.slots[e.event.slot].tasks|, e.event.totalTime);
    }
  }

  lemma CallbackSendsGood(compute: int -> int, s: System, e: Event)
    requires Inv(compute, s) && Enabled(s, e) && e.WorkerCallback?
    ensures var s' := Apply(compute, s, e);
            forall env :: env in s'.requests ==> GoodRequest(compute, s'.processes, env)
  {
    ProcessKeeps(compute, s, e);
    var s' := Apply(compute, s, e);
    forall env | env in s'.requests ensures GoodRequest(compute, s'.processes, env) {
      if env in s.requests {
        assert GoodRequest(compute, s.processes, env);
      } else {
        assert env.ticket == TicketOf(e.p, s'.processes[e.p], e.event.slot);
        assert env.request in Sends(compute, s.processes[e.p], e.event, e.times);
      }
    }
  }

  lemma WorkerCallbackKeeps(compute: int -> int, s: System, e: Event)
    requires Inv(compute, s) && Enabled(s, e) && e.WorkerCallback?
    ensures Inv(compute, Apply(compute, s, e))
  {
    ProcessKeeps(compute, s, e);
    CallbackSendsGood(compute, s, e);
    var s' := Apply(compute, s, e);
    assert s'.master == s.master && s'.files == s.files && s'.answers == s.answers;
    forall a | a in s'.answers ensures GoodAnswer(s'.processes, a) { assert GoodAnswer(s.processes, a); }
  }

  lemma ApplyKeeps(compute: int -> int, s: System, e: Event)
    requires Inv(compute, s)
    ensures Inv(compute, Apply(compute, s, e))
  {
    if Enabled(s, e) {
      match e
      case MasterStart(_, _, _) => MasterStartKeeps(compute, s, e);
      case MasterHandle(_, _) => MasterHandleKeeps(compute, s, e);
      case MasterStop =>
      case WorkerStart(_, _, _, _) => WorkerStartKeeps(compute, s, e);
      case WorkerCallback(_, _, _) => WorkerCallbackKeeps(compute, s, e);
      case WorkerStop(_) =>
        forall env | env in s.requests ensures GoodRequest(compute, Apply(compute, s, e).processes, env) {
          assert GoodRequest(compute, s.processes, env);
        }
        forall a | a in s.answers ensures GoodAnswer(Apply(compute, s, e).processes, a) {
          assert GoodAnswer(s.processes, a);
        }
    }
  }

  lemma {:induction false} RunKeeps(compute: int -> int, s: System, es: seq<Event>)
    requires Inv(compute, s)
    ensures Inv(compute, RunFrom(compute, s, es))
  {
    if es == [] {
    } else {
      RunKeeps(compute, s, es[..|es|-1]);
      ApplyKeeps(compute, RunFrom(compute, s, es[..|es|-1]), es[|es|-1]);
    }
  }

  // ----- the theorems -----

  /**
   In every run, whenever Finish is called the solver has received, since that
   start, each task exactly once with its true result; the total an accumulating
   solver holds is the sequential one.
   */
  lemma FinishIsExact(compute: int -> int, es: seq<Event>)
    ensures var s := Run(compute, es);
            s.master.Some? ==>
              forall c :: c in s.master.value.finishes ==>
                Exact(s.master.value.queue, compute, c) && Total(c) == SequentialTotal(s.master.value.queue, compute)
  {
    RunKeeps(compute, INITIAL, es);
    var s := Run(compute, es);
    if s.master.Some? {
      forall c | c in s.master.value.finishes
        ensures Total(c) == SequentialTotal(s.master.value.queue, compute)
      {
        ExactTotal(s.master.value.queue, compute, c);
      }
    }
  }

  /** In every run: replies followed by the pending queue are the queue at the start; nothing is handed out twice. */
  lemma HandoutsFollowQueue(compute: int -> int, es: seq<Event>)
    ensures var s := Run(compute, es);
            s.master.Some? ==>
              && s.startPending == s.handed + s.master.value.pending
              && NoDup(s.handed) && (forall id :: id in s.handed ==> id !in s.master.value.pending)
  {
    RunKeeps(compute, INITIAL, es);
    var s := Run(compute, es);
    if s.master.Some? {
      assert forall k :: 0 <= k < |s.handed| ==> s.handed[k] == s.startPending[k];
      var pending := s.master.value.pending;
      assert forall k :: 0 <= k < |pending| ==> pending[k] == s.startPending[|s.handed| + k];
    }
  }

  /** In every run: the queues partition the ids and every running task is listed exactly once. */
  lemma MasterIsConsistent(compute: int -> int, es: seq<Event>, id: int)
    requires Run(compute, es).master.Some?
    ensures var m := Run(compute, es).master.value;
            && NoDup(m.pending)
            && (id in m.queue <==> id in m.pending || id in m.running || DoneIn(m.items, id))
            && !(id in m.pending && id in m.running)
            && !(id in m.pending && DoneIn(m.items, id)) && !(id in m.running && DoneIn(m.items, id))
            && (id in m.pending ==> id in m.items && m.items[id].status == Pending)
            && (id in m.running ==> id in m.items && m.items[id].status == Running)
            && (id in m.running ==>
                  exists w :: w in m.lists && multiset(m.lists[w])[id] == 1 &&
                              forall v :: v in m.lists && v != w ==> multiset(m.lists[v])[id] == 0)
  {
    RunKeeps(compute, INITIAL, es);
    var m := Run(compute, es).master.value;
    MI.Partition(m, compute);
    if id in m.running { MI.RunningListedOnce(m, id, compute); }
  }

  /** In every run: a batch being computed is not empty and within the batch size, or within 100 in timed mode. */
  lemma BatchesAreLimited(compute: int -> int, es: seq<Event>, p: nat, k: nat)
    requires p in Run(compute, es).processes && k < |Run(compute, es).processes[p].state.slots|
    requires Run(compute, es).processes[p].state.slots[k].Computing?
    ensures var proc := Run(compute, es).processes[p];
            1 <= |proc.state.slots[k].tasks| <= (if proc.batchSize > 0 then proc.batchSize else 100)
  {
    RunKeeps(compute, INITIAL, es);
    assert GoodProcess(Run(compute, es).processes[p]);
  }

  /** In every run: a worker process counts its computing slots, and has asked to exit once all are retired. */
  lemma WorkersAreConsistent(compute: int -> int, es: seq<Event>, p: nat)
    requires p in Run(compute, es).processes
    ensures var proc := Run(compute, es).processes[p];
            && |proc.state.slots| == proc.threads
            && proc.state.runningTaskCount == W.ComputingCount(proc.state.slots)
            && (proc.threads > 0 && W.AllRetired(proc.state) ==> proc.state.exitRequested)
  {
    RunKeeps(compute, INITIAL, es);
    assert GoodProcess(Run(compute, es).processes[p]);
  }

  /** While the same master runs, a done task is settled, over any continuation of the run. */
  lemma {:induction false} DoneStaysSettled(compute: int -> int, s: System, es: seq<Event>, id: int)
    requires Inv(compute, s) && s.master.Some? && DoneIn(s.master.value.items, id)
    requires forall k :: 0 <= k < |es| ==> !es[k].MasterStart? && !es[k].MasterStop?
    ensures SettledSince(s, RunFrom(compute, s, es), id)
  {
    if es == [] {
    } else {
      var s1, e := RunFrom(compute, s, es[..|es|-1]), es[|es|-1];
      DoneStaysSettled(compute, s, es[..|es|-1], id);
      RunKeeps(compute, s, es[..|es|-1]);
      if Enabled(s1, e) && e.MasterHandle? {
        MI.DoneIsSettled(s1.master.value, e.envelope.request, e.now, id, compute);
        HandleOnlyAppends(s1.master.value, e.envelope.request, e.now);
        HandleSettles(compute, s, s1, e, id);
      }
    }
  }

  /** The task has kept its record, and has neither been delivered nor handed out again. */
  ghost predicate SettledSince(s: System, s': System, id: int)
    requires s.master.Some? && DoneIn(s.master.value.items, id)
  {
    && s'.master.Some?
    && var m, m' := s.master.value, s'.master.value;
       && DoneIn(m'.items, id) && m'.items[id] == m.items[id]
       && |m.received| <= |m'.received|
       && (forall k :: |m.received| <= k < |m'.received| ==> m'.received[k].id != id)
       && |s.handed| <= |s'.handed|
       && (forall k :: |s.handed| <= k < |s'.handed| ==> s'.handed[k] != id)
  }

  lemma {:induction false} HandleSettles(compute: int -> int, s: System, s1: System, e: Event, id: int)
    requires s.master.Some? && DoneIn(s.master.value.items, id) && SettledSince(s, s1, id)
    requires e.MasterHandle? && Enabled(s1, e)
    requires var m, m', req := s1.master.value, Handle(s1.master.value, e.envelope.request, e.now), e.envelope.request;
             && DoneIn(m'.items, id) && m'.items[id] == m.items[id] && m.received <= m'.received
             && (forall k :: |m.received| <= k < |m'.received| ==> m'.received[k].id != id)
             && (req.GetTask? ==> id !in ReplyTo(m, req).tasks)
    ensures SettledSince(s, Apply(compute, s1, e), id)
  {
  }

  /** While the same master runs, a task that has been handed out is never handed out again. */
  lemma {:induction false} HandedOnlyOnce(compute: int -> int, s: System, es: seq<Event>, id: int)
    requires s.master.Some? && id !in s.master.value.pending
    requires forall k :: 0 <= k < |es| ==> !es[k].MasterStart? && !es[k].MasterStop?
    ensures var s' := RunFrom(compute, s, es);
            && s'.master.Some? && id !in s'.master.value.pending
            && s.handed <= s'.handed
            && (forall k :: |s.handed| <= k < |s'.handed| ==> s'.handed[k] != id)
  {
    if es == [] {
    } else {
      HandedOnlyOnce(compute, s, es[..|es|-1], id);
      var s1, e := RunFrom(compute, s, es[..|es|-1]), es[|es|-1];
      if Enabled(s1, e) && e.MasterHandle? { ReplyIsPrefix(s1.master.value, e.envelope.request, e.now); }
    }
  }

  lemma {:induction false} HandleOnlyAppends(m: Master, req: Request, now: int)
    ensures m.received <= Handle(m, req, now).received
  {
    var m0 := WithWorker(m, req.worker);
    match req
    case GetTask(w, n) => MI.HandOutTakesPrefix(m0, w, Max(n, 1));
    case FinishCompute(w, rs) => MI.AcceptAllWork(m0, rs);
    case OtherRequest(_) =>
  }

  /** The report that completes the work is saved, so the next start finishes without handing out anything. */
  lemma {:induction false} CompletionIsSaved(compute: int -> int, es: seq<Event>, env: Envelope, now: int)
    requires var s := Run(compute, es);
             && s.master.Some? && env in s.requests && env.request.FinishCompute? && |env.request.results| > 0
             && AllDone(Handle(s.master.value, env.request, now))
    ensures var m := Handle(Run(compute, es).master.value, env.request, now);
            && m.file.Some?
            && var m' := Start(m.queue, m.file, true);
               && m'.finishes == [m'.received] && Exact(m.queue, compute, m'.received) && m'.exiting
               && (forall w, n :: ReplyTo(m', GetTask(w, n)) == TaskBatch([]))
  {
    RunKeeps(compute, INITIAL, es);
    var s := Run(compute, es);
    var m := Handle(s.master.value, env.request, now);
    assert GoodRequest(compute, s.processes, env);
    MI.HandleKeeps(s.master.value, env.request, now, compute);
    MI.CompletedReloadFinishes(m, compute);
    CompletionWritesFile(s.master.value, env.request, now);
  }

  lemma {:induction false} CompletionWritesFile(m: Master, req: Request, now: int)
    requires req.FinishCompute? && req.results != [] && AllDone(Handle(m, req, now))
    ensures Handle(m, req, now).file == Some(MI.SnapshotOf(Handle(m, req, now)))
  {
    MI.ReportIsSavedExactly(m, req.worker, req.results, now);
  }

  // ----- what a worker sends -----

  /** At its start a worker sends one request for each slot: for the batch size, or in timed mode for one task. */
  lemma FirstRequestsSent(p: nat, name: string, threads: nat, batchSize: int, env: Envelope)
    ensures env in FirstRequests(p, name, threads, batchSize) <==>
              && env.ticket.process == p && env.ticket.slot < threads && env.ticket.serial == 0
              && env.request == GetTask(name, if batchSize > 0 then batchSize else 1)
  {
    if env.ticket == Ticket(p, env.ticket.slot, 0) && env.ticket.slot < threads {
      assert Envelope(env.ticket, GetTask(name, W.RequestedCount(batchSize, 1)))
             in FirstRequests(p, name, threads, batchSize);
    }
  }

  /** After a batch its report: each task, in order, with its result and its time. */
  lemma ReportSent(compute: int -> int, proc: Process, k: nat, totalTime: int, times: seq<int>)
    requires k < |proc.state.slots| && proc.state.slots[k].Computing? && |times| == |proc.state.slots[k].tasks|
    ensures var tasks := proc.state.slots[k].tasks;
            exists rs :: Sends(compute, proc, W.ComputeDone(k, totalTime), times) == {FinishCompute(proc.name, rs)}
                         && |rs| == |tasks|
                         && forall i :: 0 <= i < |tasks| ==> rs[i] == TaskResult(tasks[i], compute(tasks[i]), times[i])
  {
    var tasks := proc.state.slots[k].tasks;
    var rs := W.Report(tasks, Computed(compute, tasks), times);
    assert Sends(compute, proc, W.ComputeDone(k, totalTime), times) == {FinishCompute(proc.name, rs)};
  }

  /** After an accepted report the next request: for the batch size, or in timed mode what the last batch suggests. */
  lemma NextRequestSent(compute: int -> int, proc: Process, k: nat, totalTime: int)
    requires k < |proc.state.slots| && proc.state.slots[k].Computing?
    ensures var tasks := proc.state.slots[k].tasks;
            var proc1 := proc.(state := W.Step(proc.state, W.ComputeDone(k, totalTime), proc.batchSize));
            && W.Enabled(proc1.state, W.FinishAccepted(k))
            && Sends(compute, proc1, W.FinishAccepted(k), []) ==
               {GetTask(proc.name, if proc.batchSize > 0 then proc.batchSize
                                   else W.SuggestedSize(proc.batchSize, |tasks|, totalTime))}
  {
  }
}
