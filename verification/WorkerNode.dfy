/** The worker node object: its callbacks against the slot model. */
module WorkerNode {
  import opened Common
  import opened Tasks
  import opened WorkerModel

  class WorkerNode {
    const myIp: string
    const batchSize: int
    var runningTaskCount: int
    var exitRequested: bool
    var sent: seq<Request>            // requests handed to the messaging client
    ghost var slots: seq<Slot>        // which callback each thread of work is waiting for

    ghost function State(): Worker
      reads this
    {
      Worker(slots, runningTaskCount, exitRequested)
    }

    constructor (myIp: string, batchSize: int)
      ensures this.myIp == myIp && this.batchSize == batchSize
      ensures State() == StartWorker(0) && sent == []
    {
      this.myIp, this.batchSize := myIp, batchSize;
      runningTaskCount, exitRequested, sent, slots := 0, false, [], [];
    }

    method Start(threadNumber: nat)
      requires State() == StartWorker(0) && sent == []
      modifies this
      ensures State() == StartWorker(threadNumber)
      ensures sent == seq(threadNumber, _ => GetTask(myIp, RequestedCount(batchSize, 1)))
    {
      for n := 0 to threadNumber
        invariant State() == StartWorker(n)
        invariant sent == seq(n, _ => GetTask(myIp, RequestedCount(batchSize, 1)))
      {
        slots := slots + [Getting];
        GetNextTask(1);
      }
    }

    method GetNextTask(suggestedSize: int)
      modifies `sent
      ensures sent == old(sent) + [GetTask(myIp, RequestedCount(batchSize, suggestedSize))]
    {
      var maxTaskCount := if batchSize > 0 then batchSize else suggestedSize;
      sent := sent + [GetTask(myIp, maxTaskCount)];
    }

    /** The answer to a get_task request: None stands for an error or a time-out. */
    method HandleGetTask(ghost i: nat, answer: Option<seq<int>>) returns (started: bool)
      requires i < |slots| && slots[i].Getting?
      modifies this
      ensures State() == Step(old(State()), if answer.Some? then GotTasks(i, answer.value) else GetFailed(i), batchSize)
      ensures started == (answer.Some? && answer.value != []) && sent == old(sent)
    {
      if answer.None? || answer.value == [] {
        slots := slots[i := Retired];
        if runningTaskCount == 0 {
          exitRequested := true;
        }
        return false;
      }
      slots := slots[i := Computing(answer.value)];
      runningTaskCount := runningTaskCount + 1;
      return true;
    }

    /** How many tasks to ask for next, from the time the last batch took. */
    method SuggestSize(size: nat, totalTime: int) returns (suggestedSize: int)
      ensures suggestedSize == SuggestedSize(batchSize, size, totalTime)
    {
      suggestedSize := 1;
      if size > 0 && batchSize < 0 {
        var expectedTime := -batchSize;
        var actualTime := totalTime as real * 0.000001 / size as real;
        if actualTime > 0.01 || -actualTime > 0.01 {
          var can := Truncate(expectedTime as real / actualTime);
          if can > 100 {
            suggestedSize := 100;
          } else if can <= 0 {
            suggestedSize := 1;
          } else {
            suggestedSize := can;
          }
        } else {
          suggestedSize := size + 1;
        }
        if suggestedSize > 100 {
          suggestedSize := 100;
        }
        if suggestedSize <= 0 {
          suggestedSize := 1;
        }
      }
    }

    /** The end of a computation: the results are sent to the master. */
    method FinishExecuteTask(ghost i: nat, tasks: seq<int>, result: seq<int>, timeUsage: seq<int>, totalTime: int)
        returns (suggestedSize: int)
      requires i < |slots| && slots[i] == Computing(tasks)
      requires |tasks| == |result| == |timeUsage|
      modifies this
      ensures State() == Step(old(State()), ComputeDone(i, totalTime), batchSize)
      ensures suggestedSize == SuggestedSize(batchSize, |tasks|, totalTime)
      ensures sent == old(sent) + [FinishCompute(myIp, Report(tasks, result, timeUsage))]
    {
      runningTaskCount := runningTaskCount - 1;
      var items: seq<TaskResult> := [];
      for n := 0 to |tasks|
        invariant items == Report(tasks[..n], result[..n], timeUsage[..n])
      {
        items := items + [TaskResult(tasks[n], result[n], timeUsage[n])];
      }
      suggestedSize := SuggestSize(|tasks|, totalTime);
      slots := slots[i := Finishing(suggestedSize)];
      assert items == Report(tasks, result, timeUsage);
      sent := sent + [FinishCompute(myIp, items)];
    }

    method HandleFinishCompute(ghost i: nat, suggestedSize: int, ok: bool)
      requires i < |slots| && slots[i] == Finishing(suggestedSize)
      modifies this
      ensures State() == Step(old(State()), if ok then FinishAccepted(i) else FinishFailed(i), batchSize)
      ensures sent == old(sent) + if ok then [GetTask(myIp, RequestedCount(batchSize, suggestedSize))] else []
    {
      if !ok {
        slots := slots[i := Retired];
        if runningTaskCount == 0 {
          exitRequested := true;
        }
      } else {
        slots := slots[i := Getting];
        GetNextTask(suggestedSize);
      }
    }
  }
}
