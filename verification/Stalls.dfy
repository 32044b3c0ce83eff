/**
 Small runs after which Finish is out of reach until the master is started again.
 They show why the exact condition needs each of its parts: a worker may die with
 the only task; one slot may give up waiting for its answer while the other slot of
 the same process goes on computing; a process may ask to exit while a slot of it
 still waits, and then all depends on whether it may act until it is gone; and a
 request that was handled twice has two answers, of which its slot takes only one,
 so that each task alone could still be settled, but not both of them.
 */
module Stalls {
  import opened Common
  import opened Tasks
  import opened MasterModel
  import opened Protocol
  import opened Stalling
  import R = Recovery
  import W = WorkerModel

  const NAME := R.NAME

  ghost function Ask(slot: nat): Event {
    MasterHandle(Envelope(Ticket(0, slot, 0), GetTask(NAME, 1)), 0)
  }

  ghost function Opening(queue: seq<int>, threads: nat): seq<Event> {
    [MasterStart(queue, None, false), WorkerStart(0, NAME, threads, 1)]
  }

  /** The only worker process, the requests of a start, and these answers. */
  ghost predicate Looks(s: System, pending: seq<int>, running: set<int>, answers: set<(Ticket, Reply)>, threads: nat) {
    && s.master.Some? && s.master.value.finishes == []
    && s.master.value.pending == pending && s.master.value.running == running
    && s.requests == FirstRequests(0, NAME, threads, 1)
    && s.answers == answers
    && s.processes.Keys == {0}
  }

  lemma RunSnoc(compute: int -> int, es: seq<Event>, e: Event)
    ensures Run(compute, es + [e]) == Apply(compute, Run(compute, es), e)
  {
    assert (es + [e])[..|es|] == es;
  }

  lemma Opens(compute: int -> int, queue: seq<int>, threads: nat)
    requires NoDup(queue)
    ensures var s := Run(compute, Opening(queue, threads));
            Looks(s, queue, {}, {}, threads) && s.processes[0] == NewProcess(NAME, threads, 1)
  {
    var start, worker := MasterStart(queue, None, false), WorkerStart(0, NAME, threads, 1);
    RunSnoc(compute, [], start);
    RunSnoc(compute, [start], worker);
    assert [] + [start] == [start] && [start] + [worker] == Opening(queue, threads);
    var s := Apply(compute, INITIAL, start);
    assert s == INITIAL.(master := Some(Fresh(queue, None)), startPending := queue);
    assert Apply(compute, s, worker).requests == FirstRequests(0, NAME, threads, 1);
  }

  lemma Asks(compute: int -> int, es: seq<Event>, slot: nat, id: int, pending: seq<int>, running: set<int>,
             answers: set<(Ticket, Reply)>, threads: nat)
    requires Looks(Run(compute, es), [id] + pending, running, answers, threads) && slot < threads
    ensures var s := Run(compute, es + [Ask(slot)]);
            && Looks(s, pending, running + {id}, answers + {(Ticket(0, slot, 0), TaskBatch([id]))}, threads)
            && s.processes == Run(compute, es).processes
  {
    var s, t := Run(compute, es), Ticket(0, slot, 0);
    RunSnoc(compute, es, Ask(slot));
    assert Envelope(t, GetTask(NAME, 1)) in s.requests;
    var m := s.master.value;
    HandsOutOne(m);
    assert m.pending[0] == id && m.pending[1..] == pending;
    assert Apply(compute, s, Ask(slot)).answers == s.answers + {(t, ReplyTo(m, GetTask(NAME, 1)))};
  }

  lemma HandsOutOne(m: Master)
    requires m.pending != []
    ensures var m' := Handle(m, GetTask(NAME, 1), 0);
            && m'.pending == m.pending[1..] && m'.running == m.running + {m.pending[0]}
            && m'.finishes == m.finishes
            && ReplyTo(m, GetTask(NAME, 1)) == TaskBatch([m.pending[0]])
  {
    var m0 := WithWorker(m, NAME);
    HandOutUnfolds(m0, NAME, 1);
    assert HandOut(HandOutOne(m0, NAME), NAME, 0) == HandOutOne(m0, NAME);
    assert m.pending[..1] == [m.pending[0]];
  }

  lemma NothingReported(s: System, threads: nat, id: int)
    requires s.requests == FirstRequests(0, NAME, threads, 1)
    ensures !HasReport(s, id)
  {
  }

  ghost function DeadWorker(): seq<Event> {
    Opening([7], 1) + [Ask(0)] + [WorkerStop(0)]
  }

  lemma DeadWorkerLooks(compute: int -> int)
    ensures var s := Run(compute, DeadWorker());
            && Looks(s, [], {7}, {(Ticket(0, 0, 0), TaskBatch([7]))}, 1) && !s.processes[0].alive
  {
    Opens(compute, [7], 1);
    assert [7] == [7] + [];
    Asks(compute, Opening([7], 1), 0, 7, [], {}, {}, 1);
    RunSnoc(compute, Opening([7], 1) + [Ask(0)], WorkerStop(0));
  }

  /** The worker dies with the only task. */
  lemma DeadWorkerStalls(compute: int -> int, prompt: bool)
    ensures !FinishInReach(compute, Run(compute, DeadWorker()), prompt)
  {
    DeadWorkerLooks(compute);
    var s := Run(compute, DeadWorker());
    NothingReported(s, 1, 7);
    NoChoice(s, prompt, 7);
    LostIsOutOfReach(compute, DeadWorker(), prompt, 7);
  }

  /** No worker computes the task or waits for an answer that holds it. */
  lemma NoChoice(s: System, prompt: bool, id: int)
    requires !HasReport(s, id) && !InWork(s, prompt, id)
    requires forall p: nat, k: nat, tasks :: MayReceive(s, prompt, p, k, tasks) ==> id !in tasks
    ensures !Coverable(s, prompt, {id})
  {
    forall c | GoodChoice(s, prompt, c) ensures !Covers(s, prompt, c, id) {
    }
  }

  /** Two slots of one process have asked, and task 7 was sent to the first, task 8 to the second. */
  ghost function BothAsked(): seq<Event> {
    Opening([7, 8], 2) + [Ask(0)] + [Ask(1)]
  }

  lemma BothAskedLooks(compute: int -> int)
    ensures var s := Run(compute, BothAsked());
            && Looks(s, [], {7, 8},
                     {(Ticket(0, 0, 0), TaskBatch([7])), (Ticket(0, 1, 0), TaskBatch([8]))}, 2)
            && s.processes[0] == NewProcess(NAME, 2, 1)
  {
    var es := Opening([7, 8], 2);
    Opens(compute, [7, 8], 2);
    assert [7, 8] == [7] + [8] && [8] == [8] + [];
    Asks(compute, es, 0, 7, [8], {}, {}, 2);
    Asks(compute, es + [Ask(0)], 1, 8, [], {} + {7}, {} + {(Ticket(0, 0, 0), TaskBatch([7]))}, 2);
  }

  const TAKE8 := WorkerCallback(0, W.GotTasks(1, [8]), [])
  const GIVE_UP := WorkerCallback(0, W.GetFailed(0), [])

  lemma GivesUp(compute: int -> int, s: System)
    requires s.processes.Keys == {0} && s.processes[0] == NewProcess(NAME, 2, 1)
    requires (Ticket(0, 1, 0), TaskBatch([8])) in s.answers
    ensures var s' := Apply(compute, Apply(compute, s, TAKE8), GIVE_UP);
            && s'.master == s.master && s'.requests == s.requests
            && s'.processes.Keys == {0} && s'.processes[0].alive && !s'.processes[0].state.exitRequested
            && s'.processes[0].state.slots == [W.Retired, W.Computing([8])]
  {
    assert Enabled(s, TAKE8);
    var s1 := Apply(compute, s, TAKE8);
    assert s1.processes[0].state == W.Worker([W.Getting, W.Computing([8])], 1, false);
    assert Enabled(s1, GIVE_UP);
  }

  ghost function GaveUp(): seq<Event> {
    BothAsked() + [TAKE8] + [GIVE_UP]
  }

  lemma GaveUpLooks(compute: int -> int)
    ensures var s := Run(compute, GaveUp());
            && s.processes.Keys == {0} && s.processes[0].alive && !s.processes[0].state.exitRequested
            && s.processes[0].state.slots == [W.Retired, W.Computing([8])]
            && s.master.Some? && s.master.value.running == {7, 8} && s.master.value.finishes == []
            && s.requests == FirstRequests(0, NAME, 2, 1)
  {
    BothAskedLooks(compute);
    GivesUp(compute, Run(compute, BothAsked()));
    RunSnoc(compute, BothAsked(), TAKE8);
    RunSnoc(compute, BothAsked() + [TAKE8], GIVE_UP);
  }

  /** One slot gives up waiting for task 7 while the other works on task 8: the process lives on, task 7 is lost. */
  lemma RetiredSlotStalls(compute: int -> int, prompt: bool)
    ensures var s := Run(compute, GaveUp());
            && s.processes.Keys == {0} && s.processes[0].alive && !s.processes[0].state.exitRequested
            && s.processes[0].state.slots == [W.Retired, W.Computing([8])]
            && !FinishInReach(compute, s, prompt)
  {
    GaveUpLooks(compute);
    var s := Run(compute, GaveUp());
    NothingReported(s, 2, 7);
    NoChoice(s, prompt, 7);
    LostIsOutOfReach(compute, GaveUp(), prompt, 7);
  }

  /** One of two slots has been answered, and the other gives up: as nothing computes, the process asks to exit. */
  ghost function Exiting(): seq<Event> {
    Opening([8], 2) + [Ask(1)] + [GIVE_UP]
  }

  lemma AsksToExit(compute: int -> int, s: System)
    requires s.processes.Keys == {0} && s.processes[0] == NewProcess(NAME, 2, 1)
    ensures var s' := Apply(compute, s, GIVE_UP);
            && s'.master == s.master && s'.requests == s.requests && s'.answers == s.answers
            && s'.processes.Keys == {0} && s'.processes[0].alive && s'.processes[0].asked == [0, 0]
            && s'.processes[0].state == W.Worker([W.Retired, W.Getting], 0, true)
  {
    assert s.processes[0].asked == [0, 0];
    assert Enabled(s, GIVE_UP);
    assert s.processes[0].state.slots[0 := W.Retired] == [W.Retired, W.Getting];
  }

  lemma ExitingLooks(compute: int -> int)
    ensures var s := Run(compute, Exiting());
            && Looks(s, [], {8}, {(Ticket(0, 1, 0), TaskBatch([8]))}, 2)
            && s.processes[0].alive && s.processes[0].asked == [0, 0]
            && s.processes[0].state == W.Worker([W.Retired, W.Getting], 0, true)
  {
    var es := Opening([8], 2);
    Opens(compute, [8], 2);
    assert [8] == [8] + [];
    Asks(compute, es, 1, 8, [], {}, {}, 2);
    AsksToExit(compute, Run(compute, es + [Ask(1)]));
    RunSnoc(compute, es + [Ask(1)], GIVE_UP);
  }

  /** Whether a process that has asked to exit can still help is exactly whether it may still act. */
  lemma ExitingStallsIfPrompt(compute: int -> int, prompt: bool)
    ensures FinishInReach(compute, Run(compute, Exiting()), prompt) <==> !prompt
  {
    ExitingLooks(compute);
    var s := Run(compute, Exiting());
    if prompt {
      NothingReported(s, 2, 8);
      NoChoice(s, prompt, 8);
      LostIsOutOfReach(compute, Exiting(), prompt, 8);
    } else {
      var c: Choice := map[(0, 1) := [8]];
      assert MayReceive(s, prompt, 0, 1, c[(0, 1)]);
      assert Chosen(c, 8);
      assert CoversAll(s, prompt, c, {8});
      FinishInReachExactly(compute, Exiting(), prompt);
    }
  }

  /** The only request is handled twice: task 7 is in the one answer, task 8 in the other. */
  ghost function AskedTwice(): seq<Event> {
    Opening([7, 8], 1) + [Ask(0)] + [Ask(0)]
  }

  lemma AskedTwiceLooks(compute: int -> int)
    ensures var s, t := Run(compute, AskedTwice()), Ticket(0, 0, 0);
            && Looks(s, [], {7, 8}, {(t, TaskBatch([7])), (t, TaskBatch([8]))}, 1)
            && s.processes[0] == NewProcess(NAME, 1, 1)
  {
    var es := Opening([7, 8], 1);
    Opens(compute, [7, 8], 1);
    assert [7, 8] == [7] + [8] && [8] == [8] + [];
    Asks(compute, es, 0, 7, [8], {}, {}, 1);
    Asks(compute, es + [Ask(0)], 0, 8, [], {} + {7}, {} + {(Ticket(0, 0, 0), TaskBatch([7]))}, 1);
  }

  /** Each of the two tasks alone can be covered, but not both: the slot takes one answer. */
  lemma RepeatedRequestStalls(compute: int -> int, prompt: bool)
    ensures var s := Run(compute, AskedTwice());
            && Coverable(s, prompt, {7}) && Coverable(s, prompt, {8})
            && !FinishInReach(compute, s, prompt)
  {
    AskedTwiceLooks(compute);
    var s := Run(compute, AskedTwice());
    forall id | id == 7 || id == 8 ensures Coverable(s, prompt, {id}) {
      var c: Choice := map[(0, 0) := [id]];
      assert MayReceive(s, prompt, 0, 0, c[(0, 0)]);
      assert Chosen(c, id);
      assert CoversAll(s, prompt, c, {id});
    }
    forall c | GoodChoice(s, prompt, c) ensures !CoversAll(s, prompt, c, {7, 8}) {
      OneAnswerOnly(s, prompt, c);
    }
    FinishInReachExactly(compute, AskedTwice(), prompt);
  }

  lemma OneAnswerOnly(s: System, prompt: bool, c: Choice)
    requires Looks(s, [], {7, 8}, {(Ticket(0, 0, 0), TaskBatch([7])), (Ticket(0, 0, 0), TaskBatch([8]))}, 1)
    requires s.processes[0] == NewProcess(NAME, 1, 1) && GoodChoice(s, prompt, c)
    ensures !Covers(s, prompt, c, 7) || !Covers(s, prompt, c, 8)
  {
    NothingReported(s, 1, 7);
    NothingReported(s, 1, 8);
    forall q | q in c ensures q == (0, 0) && (c[q] == [7] || c[q] == [8]) {
      assert MayReceive(s, prompt, q.0, q.1, c[q]);
    }
  }
}
