# dcfpe: models and proofs

Dafny models of the stateful cores of dcfpe, a master/worker framework for
distributed computation with its messaging layer, a remote shell that deploys it,
and a build script. Each core that changes state in place is a class whose
methods are proved against a value model; what the core is for is proved about
the value model, over every run. `dafny verify dfyconfig.toml` checks everything.

| files | what they model |
|---|---|
| `Common` | options, and sequences without repetition |
| `Tasks`, `MasterModel`, `MasterInvariant`, `MasterLaws`, `MasterNode` | the master: queues, task table, worker lists, state file, what the solver was told |
| `WorkerModel`, `WorkerNode` | the worker: its slots, running count, batch size |
| `Protocol`, `Recovery`, `Stalling`, `Stalls` | master, workers and network together, over whole runs |
| `WeakPointer`, `WeakPointerLaws` | weak-to-strong promotion by any number of threads |
| `Glob` | wildcard matching of build targets |
| `ZmqServer`, `ZmqServerSafety`, `ZmqServerNode` | the reply server: poll thread and UI thread |
| `ZmqClient`, `ZmqClientNode` | the request client: poll thread and UI thread |
| `RepeatedAction` | the cookie-guarded timer |
| `OutputBuffer` | the command executor's output buffer |
| `ByteBuffer` | the growable byte buffer |
| `RangeTasks` | cutting a range into blocks |
| `Deploy`, `Tokenizer` | the deploy script compiler, its engine, and the command-line tokenizer |

The protocol's assumptions: task ids are distinct, `Compute` is a function of the
task id, and a message or state file that arrives or is read is one that was sent
or written. The network keeps every message ever sent and may deliver it any
number of times, later, or never; a reply only reaches the slot that still
waits for the answer to that very request. A worker that has asked to exit may act
until it is gone. Worker processes start and die at any moment;
the master stops at any moment and starts again, with or without reading a state
file, which may be any file ever written. Time is a parameter of each step.

Where the code does not do what it seems to promise, the exact condition is proved:

- `match_one` misses a match when the target has a star before its last
  character (`Glob.CorrectOnTarget`).
- A server with two contexts that defer to the UI thread can leave a request
  unanswered (`ZmqServerSafety.AnswersAllExactly`).
- A running task is never handed out again without a restart, so one worker
  that dies, or one slot that gives up waiting, can put Finish out of reach
  (`Stalling.FinishInReachExactly` and the runs in `Stalls`).
- Every operation of the `stop` action leads straight to EXIT, so only the first
  host is reached (`Deploy.StopRunsFirstOnly`).
- The client accepts a request before Start, and its first poll then sleeps one
  millisecond whatever the deadline (`ZmqClient.OversleepsExactly`,
  `ZmqClient.EarlyRequestIsSleptPast`). The program starts the client first, and
  then no poll sleeps past a deadline (`ZmqClient.NeverSleepsPast`).
- An action that starts its own timer doubles its queued tasks
  (`RepeatedAction.AtMostOneLiveExactly`, `RepeatedAction.SelfStartDoubles`).
- A transfer line with a space in a path, or a path that starts with a quote,
  does not split back (`Tokenizer.JoinTokenizesExactly`,
  `Deploy.SpacedPathIsSplit`).
- A range whose last element lies far enough before its first gives an iteration
  that misses its end (`RangeTasks.IterationEndsExactly`,
  `RangeTasks.ReversedRangeMissesEnd`).

Where code and comments disagree the model follows the code:
`src/dpe_base/interface_base.h:15-17` says that weak pointers cannot be promoted,
while lines 511-522 promote them; `src/dpe/dpe_internal.h:19-20` speaks of a
guaranteed batch size, which timed mode replaces by a limit of 100 tasks.

## Model

| member | source | states |
|---|---|---|
| `Protocol.FinishIsExact` | src/dpe/dpe_master_node.cc:91-141 | In every run with lost, repeated and reordered messages, dying workers, and masters restarted from any written state file: at each call of Finish the solver has received, since that start, each task exactly once with its true result, so its total is the sequential one |
| `Protocol.HandoutsFollowQueue` | src/dpe/dpe_master_node.cc:74-87 | In every run: the replies of the present master, concatenated and followed by its pending queue, are the pending queue it started with, and no task is handed out twice |
| `Protocol.MasterIsConsistent` | src/dpe/dpe_master_node.cc:78-114 | In every run: pending, running and done partition the task ids and agree with the status in the task table, and a running task stands exactly once on all workers' lists together |
| `Protocol.DoneStaysSettled` | src/dpe/dpe_master_node.cc:99-114 | Over any continuation without a restart, a done task keeps its stored record and is neither handed out nor delivered to the solver again |
| `Protocol.HandedOnlyOnce` | src/dpe/dpe_master_node.cc:78-87 | Over any continuation without a restart, a task that has been handed out is never handed out again |
| `Protocol.CompletionIsSaved` | src/dpe/dpe_master_node.cc:131-137 | After any run, the report that completes the work leaves a state file from which the next start finishes at once, with the exact answer and nothing to hand out |
| `Protocol.BatchesAreLimited` | src/dpe/dpe_worker_node.cc:32-37 | In every run a batch being computed is not empty and has at most batch_size tasks, or at most 100 in timed mode |
| `Protocol.WorkersAreConsistent` | src/dpe/dpe_worker_node.cc:45-90 | In every run each worker process counts exactly its computing slots, and has asked to exit once all its slots are retired |
| `Protocol.RunKeeps` | src/dpe/dpe_master_node.cc:64-145 | The system invariant survives every sequence of events, from every state that has it |
| `Protocol.ApplyKeeps` | src/dpe/dpe_master_node.cc:64-145 | Every single event of the system keeps the invariant |
| `Protocol.ReplyIsPrefix` | src/dpe/dpe_master_node.cc:78-87 | A request takes from the pending queue exactly the prefix its reply carries |
| `Protocol.HandleOnlyAppends` | src/dpe/dpe_master_node.cc:131-134 | A request never takes back anything the solver was given |
| `Recovery.RecoveryIsPossible` | src/dpe/dpe_master_node.cc:265-331 | After any run, a restart from any written state file, or from none, can be continued to a call of Finish; the continuation is given |
| `Recovery.CompletionFinishes` | src/dpe/dpe_master_node.cc:64-145 | One new worker that takes all pending tasks and reports them brings a restarted master to Finish in five events |
| `Protocol.FirstRequestsSent` | src/dpe/dpe_worker_node.cc:22-43 | A starting worker sends one request for each slot: for the batch size, or in timed mode for one task |
| `Protocol.ReportSent` | src/dpe/dpe_worker_node.cc:119-133 | The report of a batch names each task, in order, with its result and its time |
| `Protocol.NextRequestSent` | src/dpe/dpe_worker_node.cc:79-90 | After an accepted report a slot asks for the batch size, or in timed mode for what its last batch suggests |
| `Stalling.FinishInReachExactly` | src/dpe/dpe_master_node.cc:78-141 | After any run, with work left: Finish can be reached without a restart if and only if one answer can be chosen for each slot that waits for one, so that every running task has been reported, is being computed, or is in a chosen answer; proved both for workers that act until they are gone and for workers that stop as soon as they ask to exit |
| `Stalling.LostForGood` | src/dpe/dpe_master_node.cc:78-141 | A running task that nobody has reported or computes, and that is in no answer a slot waits for, stays running, and Finish is not called, over any continuation without a restart |
| `Stalling.CoveredFinishes` | src/dpe/dpe_master_node.cc:78-141 | If such a choice of answers exists, a continuation without a restart that reaches Finish; it is given |
| `Stalls.DeadWorkerStalls` | src/dpe/dpe_master_node.cc:78-87 | A run after which Finish is out of reach: the only worker dies with the only task |
| `Stalls.RetiredSlotStalls` | src/dpe/dpe_worker_node.cc:45-53 | A run after which Finish is out of reach while the process lives on and computes: one slot gave up waiting for its answer |
| `Stalls.ExitingStallsIfPrompt` | src/dpe/dpe.cc:84-106 | A run after which Finish is in reach if and only if a process that has asked to exit may still act |
| `Stalls.RepeatedRequestStalls` | src/dpe/dpe_master_node.cc:78-87 | A run after which each running task alone could be covered but not both: a request was handled twice, and its slot takes one answer |
| `MasterInvariant.HandleKeeps` | src/dpe/dpe_master_node.cc:64-145 | Every request with true results keeps the master's invariant: queues equal to what the table says, solver told exactly the done tasks, lists without repetition, state file true, every Finish exact |
| `MasterInvariant.StartKeeps` | src/dpe/dpe_master_node.cc:38-53 | Every start, from no file or from any true file, establishes that invariant |
| `MasterInvariant.AllDoneIsExact` | src/dpe/dpe_master_node.cc:134-137 | With nothing pending and nothing running, what the solver has received is the exact answer |
| `MasterInvariant.Partition` | src/dpe/dpe_master_node.cc:38-44 | Pending, running and done are disjoint, together the task ids, and agree with the status in the task table; pending has no repetition |
| `MasterInvariant.RunningListedOnce` | src/dpe/dpe_master_node.cc:78-83 | A running task stands once on one worker's list and on no other |
| `MasterInvariant.HandOutTakesPrefix` | src/dpe/dpe_master_node.cc:78-87 | A handout removes a prefix of the pending queue and touches neither the solver nor the file |
| `MasterInvariant.HandOutRuns` | src/dpe/dpe_master_node.cc:81-84 | Exactly the tasks handed out become running |
| `MasterInvariant.HandOutLists` | src/dpe/dpe_master_node.cc:82-82 | Exactly the tasks handed out are appended, in order, to the asking worker's list and to no other |
| `MasterInvariant.ReportSettles` | src/dpe/dpe_master_node.cc:99-114 | A report makes done exactly the running tasks it names, whoever they were handed to, and no others |
| `MasterInvariant.ReportUnlists` | src/dpe/dpe_master_node.cc:116-125 | A report removes exactly the named tasks from the reporter's list and changes no other list |
| `MasterInvariant.ReportIsSavedExactly` | src/dpe/dpe_master_node.cc:236-263 | A report with results is saved exactly when it completes the work, or nothing was saved before, or 240 seconds have passed since; what is saved is the new state |
| `MasterInvariant.WorkFalls` | src/dpe/dpe_master_node.cc:74-114 | Twice the pending plus the running falls by exactly the tasks handed out plus the results accepted |
| `MasterInvariant.DoneIsSettled` | src/dpe/dpe_master_node.cc:99-114 | One request leaves the record of a done task alone, does not hand it out, and does not deliver it again |
| `MasterInvariant.ReloadRestores` | src/dpe/dpe_master_node.cc:299-330 | Loading a snapshot of a reachable state keeps exactly its done tasks with their records, makes the others pending in queue order, and runs nothing |
| `MasterInvariant.ReloadTellsSolver` | src/dpe/dpe_master_node.cc:327-328 | The solver of the restarted process is told the same results, as a multiset of tasks and in total |
| `MasterInvariant.ReloadIsIdempotent` | src/dpe/dpe_master_node.cc:299-330 | Saving and loading a second time changes nothing but the file |
| `MasterInvariant.CompletedReloadFinishes` | src/dpe/dpe_master_node.cc:45-50 | A state saved at completion makes the next start finish with the exact answer, every get_task reply being empty |
| `MasterLaws.RequestGetsPrefix` | src/dpe/dpe_master_node.cc:72-90 | A request for n tasks gets the first n pending ones, at least one and at most all; they leave the pending queue, become running, and go to the end of the asking worker's list |
| `MasterLaws.RequestMarksRunning` | src/dpe/dpe_master_node.cc:83-84 | The records of the tasks handed out change in their status alone, and no other record changes |
| `MasterLaws.AskingOnlyHandsOut` | src/dpe/dpe_master_node.cc:72-90 | A request that is no report never ends the computation, delivers nothing and saves nothing |
| `MasterLaws.ReportRecords` | src/dpe/dpe_master_node.cc:99-114 | A report stores, for each running task it names, the first result and time it gives for it, and changes no other record |
| `MasterLaws.ReportFinishesExactly` | src/dpe/dpe_master_node.cc:131-141 | Finish is called, with all that has been received, exactly by a report with results after which nothing is pending or running |
| `MasterLaws.WithoutInOrder` | src/dpe/dpe_master_node.cc:116-125 | The reporter's list keeps its unreported tasks in their order |
| `MasterLaws.FreshStart` | src/dpe/dpe_master_node.cc:32-53 | A start without reading the state file, whatever the file, has all tasks pending in order and has told the solver nothing |
| `MasterLaws.StartTakesDone` | src/dpe/dpe_master_node.cc:299-330 | A start from any file takes over exactly the done tasks it holds of the queue, with their records, re-queues the others, and finishes at once if there are none |
| `MasterLaws.StartWithoutFile` | src/dpe/dpe_master_node.cc:265-283 | A start without a file is a fresh one, except that it finishes at once if there is nothing to do |
| `MasterLaws.PendingInOrder` | src/dpe/dpe_master_node.cc:305-318 | The reload goes through the tasks in order: any that is not done becomes pending |
| `MasterLaws.DeliveredInOrder` | src/dpe/dpe_master_node.cc:305-318 | The reload goes through the tasks in order: any that is done is delivered with its stored result and time |
| `MasterNode.MasterNode.constructor` | src/dpe/dpe_master_node.cc:11-15 | A new node has empty queues, no table, and has never saved |
| `MasterNode.MasterNode.Start` | src/dpe/dpe_master_node.cc:32-54 | The start loop, the optional reload and the immediate Finish reach the state of the model's start |
| `MasterNode.MasterNode.LoadState` | src/dpe/dpe_master_node.cc:265-331 | Reload against the model; a missing or unreadable file changes nothing |
| `MasterNode.MasterNode.SaveState` | src/dpe/dpe_master_node.cc:236-263 | Writes the table and the lists when forced, when never saved, or when more than three whole minutes have passed |
| `MasterNode.MasterNode.GetWorker` | src/dpe/dpe_master_node.cc:66-66 | Creates an empty record for an unknown worker and changes nothing else |
| `MasterNode.MasterNode.HandleRequest` | src/dpe/dpe_master_node.cc:64-145 | New state and reply of every kind of request |
| `MasterNode.MasterNode.HandOutTasks` | src/dpe/dpe_master_node.cc:78-87 | The handout loop: final state, and the reply as a prefix of the pending queue |
| `MasterNode.MasterNode.AcceptEach` | src/dpe/dpe_master_node.cc:95-114 | The first loop over a report: which tasks become done, and what is passed to the solver |
| `MasterNode.MasterNode.AcceptResults` | src/dpe/dpe_master_node.cc:91-142 | The whole branch for a report |
| `MasterNode.MasterNode.ConcludeReport` | src/dpe/dpe_master_node.cc:134-140 | Forced save, Finish and exit when all is done; an ordinary save otherwise |
| `MasterNode.EnqueueAll` | src/dpe/dpe_master_node.cc:38-44 | All generated tasks are pending, in order, with fresh records |
| `MasterNode.ScanCache` | src/dpe/dpe_master_node.cc:299-318 | The reload loop: cached results, new pending queue and new table |
| `MasterNode.Filter` | src/dpe/dpe_master_node.cc:116-125 | The list without the reported ids, in order |
| `Tasks.ExactTotal` | src/dpe/main.cc:35-44 | A solver that adds up an exact delivery holds the sum a sequential loop computes |
| `WorkerModel.WorkerRuns` | src/dpe/dpe_worker_node.cc:22-90 | Over any sequence of callbacks the running count is the number of computing slots, the number of slots is constant, and exit has been requested once all slots are retired |
| `WorkerModel.StepKeepsWorker` | src/dpe/dpe_worker_node.cc:45-90 | A callback requests exit exactly when it retires a slot while no slot computes |
| `WorkerModel.SuggestedSizeRange` | src/dpe/dpe_worker_node.cc:135-157 | A suggested batch size lies between 1 and 100 |
| `WorkerModel.SuggestedSizeFits` | src/dpe/dpe_worker_node.cc:136-157 | In timed mode, when the tasks of the last batch took more than 10 ms each, the suggestion is the largest number within 1 and 100 whose time at that rate does not exceed the wanted seconds, with 1 as the fallback |
| `WorkerModel.SuggestedSizeElse` | src/dpe/dpe_worker_node.cc:135-157 | Quicker tasks let the batch grow by one, up to 100; a clock that went back, or no timed mode, asks for one |
| `WorkerModel.SlotCycles` | src/dpe/dpe_worker_node.cc:45-90 | What each callback makes of its slot, and that no other slot moves |
| `WorkerNode.WorkerNode.Start` | src/dpe/dpe_worker_node.cc:22-28 | One get_task request for one task, or the batch size, per thread |
| `WorkerNode.WorkerNode.GetNextTask` | src/dpe/dpe_worker_node.cc:32-43 | The batch size if positive, the suggestion otherwise |
| `WorkerNode.WorkerNode.HandleGetTask` | src/dpe/dpe_worker_node.cc:45-77 | A failed or empty answer retires the slot; any other starts a computation |
| `WorkerNode.WorkerNode.SuggestSize` | src/dpe/dpe_worker_node.cc:135-157 | The branches that compute the suggestion |
| `WorkerNode.WorkerNode.FinishExecuteTask` | src/dpe/dpe_worker_node.cc:119-165 | The count goes down, and the report pairs every task with its own result and time |
| `WorkerNode.WorkerNode.HandleFinishCompute` | src/dpe/dpe_worker_node.cc:79-90 | An accepted report leads to the next request with the suggestion; a failed one retires the slot |
| `WeakPointer.StrongCountIsExact` | src/dpe_base/interface_base.h:114-140 | In every interleaving the strong count is the number of outstanding strong pointers; while there is one the object is alive; it is deleted at most once |
| `WeakPointer.ZeroIsFinal` | src/dpe_base/interface_base.h:221-229 | Once a release has reached zero the count stays zero over any continuation and no promotion succeeds |
| `WeakPointer.PromotionAddsOne` | src/dpe_base/interface_base.h:511-522 | After a successful compare-and-swap, over any interleaving, the object is alive, and the thread holds exactly one strong pointer more than before (two until the extra one is returned), plus those that other threads gave it meanwhile |
| `WeakPointer.PromotionIsSafe` | src/dpe_base/interface_base.h:133-138 | A compare-and-swap that would succeed finds a live object, and the object is alive at every later point of promote() |
| `WeakPointerLaws.CountFollowsRun` | src/dpe_base/interface_base.h:114-122 | In every run the strong count, and each thread's share of it, is what was acquired less what was released |
| `WeakPointerLaws.CopyAddsOne` | src/dpe_base/interface_base.h:216-219 | Wrapping the raw pointer, or copying a strong one, adds one strong pointer and changes nothing else |
| `WeakPointerLaws.ReleaseDropsOne` | src/dpe_base/interface_base.h:221-229 | Dropping a strong pointer takes one away and changes nothing else; the thread goes on to delete the object exactly if it was the last |
| `WeakPointerLaws.GiveMovesOne` | src/dpe_base/interface_base.h:499-504 | Moving a pointer takes it from one thread and gives it to the other |
| `WeakPointerLaws.HandleAddsOne` | src/dpe_base/interface_base.h:461-471 | Making or copying a weak handle adds one handle and changes nothing else |
| `WeakPointerLaws.HandleDropsOne` | src/dpe_base/interface_base.h:95-101 | Dropping a weak handle takes one away; the thread goes on to free the block exactly if nothing else counted on it |
| `WeakPointerLaws.FailedAttempts` | src/dpe_base/interface_base.h:126-139 | A load that sees zero, and a compare-and-swap that comes too late, change no pointer; the latter tries again |
| `WeakPointerLaws.DestructionStep` | src/dpe_base/interface_base.h:206-214 | The steps of a destruction one by one: deletion, invalid handles, the object's share of the block, the block |
| `WeakPointerLaws.LastReleaseDestroys` | src/dpe_base/interface_base.h:206-229 | The release of the last strong pointer leads to the deletion of the object, invalid handles, and a freed block exactly if no handle is left |
| `WeakPointer.BlockLifetime` | src/dpe_base/interface_base.h:90-111 | The block counts the weak handles plus the object, is freed at most once and only after both are gone; a destroyed object is invalid to every handle |
| `WeakPointer.NoUseAfterFree` | src/dpe_base/interface_base.h:95-101 | No thread ever has a next operation on a freed block |
| `WeakPointer.NoUseAfterDelete` | src/dpe_base/interface_base.h:216-229 | No operation on the object finds it deleted |
| `WeakPointer.NothingLeaks` | src/dpe_base/interface_base.h:206-229 | With no pointer left and all threads idle, object and block have each been deleted exactly once |
| `WeakPointer.OthersKeepOwn` | src/dpe_base/interface_base.h:511-522 | A step of another thread takes no pointer from a thread, adds a strong one only by giving it, and does not move its control point |
| `WeakPointer.PromoteAlone` | src/dpe_base/interface_base.h:124-140 | Undisturbed, Promote succeeds at its first attempt if the object is held, and fails if not |
| `WeakPointer.StepKeeps` | src/dpe_base/interface_base.h:90-140 | Every atomic operation of every thread keeps the invariant behind these theorems |
| `Glob.MatchOne` | src/build.py:14-33 | The loop decides the greedy relation for every target and every pattern, and terminates |
| `Glob.LatestStarSuffices` | src/build.py:24-27 | Forgetting every star but the latest loses no match |
| `Glob.NoLongerStarAtEnd` | src/build.py:30-33 | At the end of the target a longer reading of the latest star cannot help |
| `Glob.GreedyIsSound` | src/build.py:14-33 | What the loop accepts matches declaratively, for every pattern and target |
| `Glob.GreedyIsComplete` | src/build.py:14-33 | What matches declaratively is accepted, for every pattern, if the target has no star before its last character |
| `Glob.CorrectOnTarget` | src/build.py:14-33 | A target is decided correctly for all patterns if and only if it has no star before its last character |
| `Glob.InnerStarIsMissed` | src/build.py:22-25 | For a target with such a star, a pattern whose match is missed |
| `Glob.MatchAny` | src/build.py:36-40 | True exactly when some pattern is accepted; every acceptance is a declarative match |
| `Glob.EqualIsAccepted` | src/build.py:38-38 | The equality test of match() never decides anything |
| `ZmqServerSafety.AnswersAllExactly` | src/dpe_base/zmq/zmq_server.cc:356-478 | Every interleaving alternates requests with their own replies and leaves none unanswered, if and only if at most one context has a handler that defers to the UI thread |
| `ZmqServerSafety.OneContextAnswers` | src/dpe_base/zmq/zmq_server.cc:356-478 | With at most one deferring context: strict alternation, the right answer each time, nothing unanswered when both threads are quiet |
| `ZmqServerSafety.RepliesAreTheHandlers` | src/dpe_base/zmq/zmq_server.cc:400-408 | In every such run each reply is the handler's early answer to the request before it, or its late answer if there is no early one, unchanged, or four zero bytes if that is empty |
| `ZmqServerSafety.TwoContextsLose` | src/dpe_base/zmq/zmq_server.cc:462-471 | With two deferring contexts, a run after which both threads are quiet and one request is never answered |
| `ZmqServerSafety.FinishKeepsExactly` | src/dpe_base/zmq/zmq_server.cc:462-471 | The final reset is harmless exactly when it covers no context activated after the copy |
| `ZmqServerSafety.StepKeeps` | src/dpe_base/zmq/zmq_server.cc:267-478 | Every step but a stray reset keeps the invariant, for any number of contexts |
| `ZmqServerNode.ZmqServerNode.ProcessEvent` | src/dpe_base/zmq/zmq_server.cc:381-418 | The loop over contexts: states, early replies, and whether a task is posted |
| `ZmqServerNode.ZmqServerNode.CopyProcessing` | src/dpe_base/zmq/zmq_server.cc:433-450 | The processing contexts with their data, in order, the data moved out |
| `ZmqServerNode.ZmqServerNode.ResetProcessing` | src/dpe_base/zmq/zmq_server.cc:462-471 | Every processing context listens again |
| `ZmqClient.AnsweredExactlyOnce` | src/dpe_base/zmq/zmq_client.cc:187-408 | In every interleaving an accepted request is exactly once in one place: open, answered, or closed by Stop; nothing else is answered |
| `ZmqClient.AnsweredWithOwnData` | src/dpe_base/zmq/zmq_client.cc:373-383 | The data of a reply arrived on the request's own socket while it was open, even when socket handles are used again |
| `ZmqClient.NoExpiredRequestRemains` | src/dpe_base/zmq/zmq_client.cc:366-408 | In every run, no open request was past its deadline when the latest pass read the clock |
| `ZmqClient.KeptIs` | src/dpe_base/zmq/zmq_client.cc:366-408 | A pass over any list of requests leaves open exactly those with neither a message nor a passed deadline |
| `ZmqClient.TimeoutsAreLate` | src/dpe_base/zmq/zmq_client.cc:385-395 | A pass answers with the request's own message, or with a time-out after its deadline and without a message |
| `ZmqClient.TurnAnswersAll` | src/dpe_base/zmq/zmq_client.cc:252-408 | In every run one turn of the poll thread watches every open request, answers each with a message by it, each other one past its deadline with a time-out, and keeps the rest |
| `ZmqClient.StopClosesAll` | src/dpe_base/zmq/zmq_client.cc:204-236 | Stop closes all open requests, and from then on no callback is posted |
| `ZmqClient.PollTimeoutIsEarliest` | src/dpe_base/zmq/zmq_client.cc:261-275 | Waiting for the poll time-out ends at the earliest deadline, or at once if that has come; it is -1 exactly when there is no deadline |
| `ZmqClient.NeverSleepsPast` | src/dpe_base/zmq/zmq_client.cc:247-283 | In every run in the order of the program, Start before any request, no poll sleeps past a deadline of its poll set |
| `ZmqClient.SleepsUntilEarliest` | src/dpe_base/zmq/zmq_client.cc:261-278 | In every run every poll but the first sleeps just until the earliest deadline of its poll set, or without limit if there is none |
| `ZmqClient.OversleepsExactly` | src/dpe_base/zmq/zmq_client.cc:278-278 | In every run whatever its order, a poll sleeps past a deadline of its poll set if and only if it is the first poll and a deadline has already come |
| `ZmqClient.EarlyRequestIsSleptPast` | src/dpe_base/zmq/zmq_client.cc:161-202 | A run with a request sent before Start, whose deadline the first poll sleeps past |
| `ZmqClient.PassPartitions` | src/dpe_base/zmq/zmq_client.cc:370-400 | A pass keeps or answers every request, none twice |
| `ZmqClient.StepKeeps` | src/dpe_base/zmq/zmq_client.cc:161-408 | Every step of either thread keeps the invariant |
| `ZmqClientNode.ZmqClientNode.SendRequest` | src/dpe_base/zmq/zmq_client.cc:187-195 | The request is appended with its time and a time-out that is zero unless positive |
| `ZmqClientNode.ZmqClientNode.PreparePoll` | src/dpe_base/zmq/zmq_client.cc:252-278 | The poll set and how long to sleep |
| `ZmqClientNode.ZmqClientNode.ProcessEvent` | src/dpe_base/zmq/zmq_client.cc:366-408 | The walk that erases in place: what stays open and which responses are posted, in order |
| `RepeatedAction.AtMostOneLive` | src/dpe_base/utility/repeated_action.cc:23-100 | If the action never calls Start or Restart, then whatever else is called and whatever fires, in any order, at most one queued task carries the live cookie, at every moment |
| `RepeatedAction.AtMostOneLiveExactly` | src/dpe_base/utility/repeated_action.cc:23-100 | For any action: there is never more than one live task if and only if no live firing has an action whose last effective call posts a task |
| `RepeatedAction.StepKeepsExactly` | src/dpe_base/utility/repeated_action.cc:85-100 | Exactly the harmful firings break the invariant |
| `RepeatedAction.OldTasksAreInert` | src/dpe_base/utility/repeated_action.cc:85-86 | A task queued before a Start, a Stop or an effective Restart never acts again |
| `RepeatedAction.RunsExactly` | src/dpe_base/utility/repeated_action.cc:85-100 | An undisturbed start or restart with n >= 0 reports its end exactly once, precisely when its cookie has fired more than n times, having run the action exactly n times |
| `RepeatedAction.CountsDown` | src/dpe_base/utility/repeated_action.cc:85-100 | From any state with one live task and n runs to go: the first n firings of its cookie run the action, the next reports the end, all later ones do nothing |
| `RepeatedAction.RunsForever` | src/dpe_base/utility/repeated_action.cc:91-91 | A start or restart with a negative count runs at each firing of its cookie, stays live and never reports an end |
| `RepeatedAction.StopStops` | src/dpe_base/utility/repeated_action.cc:50-54 | After a Stop nothing acts, whatever fires, and a Restart is refused |
| `RepeatedAction.SelfStartDoubles` | src/dpe_base/utility/repeated_action.cc:92-97 | An action that starts its own timer leaves two live tasks |
| `RepeatedAction.RepeatedAction.Start` | src/dpe_base/utility/repeated_action.cc:23-48 | New cookie, count and queued task |
| `RepeatedAction.RepeatedAction.Stop` | src/dpe_base/utility/repeated_action.cc:50-54 | New cookie, not running |
| `RepeatedAction.RepeatedAction.Restart` | src/dpe_base/utility/repeated_action.cc:56-78 | Refused unless running; otherwise a new cookie, count and queued task |
| `RepeatedAction.RepeatedAction.DoActionImpl` | src/dpe_base/utility/repeated_action.cc:85-100 | The cookie test, the count and the next task |
| `OutputBuffer.NothingLostOrReordered` | src/remote_shell/command_executor.cc:81-160 | For all chunks, timer firings and stops: messages sent followed by the buffer are the shown input, character by character and stream by stream; the buffer has at most 1024 characters |
| `OutputBuffer.StopSendsEverything` | src/remote_shell/command_executor.cc:81-98 | At a stop all shown input precedes the exit message and the buffer is empty |
| `OutputBuffer.EachStreamAsWanted` | src/remote_shell/command_executor.cc:81-125 | When a command has stopped, all of its stdout was sent exactly if stdout is wanted, and all of its stderr exactly if stderr is |
| `OutputBuffer.ChunkSendsExactly` | src/remote_shell/command_executor.cc:127-140 | A chunk is kept with what was buffered unless the stream changes, the text exceeds 1024 characters, or the last sending is more than 50 ms ago |
| `OutputBuffer.FlushSendsAll` | src/remote_shell/command_executor.cc:100-125 | A timer and a stop send what there is and note the time; with an empty buffer the timer does nothing |
| `OutputBuffer.BufferIsYoung` | src/remote_shell/command_executor.cc:127-140 | In every run, what waits in the buffer is the text of the latest chunks, all of one stream, and had waited at most 50 ms when the last of them was checked |
| `OutputBuffer.MessagesAreShown` | src/remote_shell/command_executor.cc:108-121 | No message is empty, and none belongs to a stream that is not shown |
| `OutputBuffer.CommandExecutor.SendBufferedOutput` | src/remote_shell/command_executor.cc:100-125 | Sends a shown buffer, empties it and notes the time; does nothing on an empty one |
| `OutputBuffer.CommandExecutor.OnOutput` | src/remote_shell/command_executor.cc:127-140 | The handler of one chunk |
| `OutputBuffer.CommandExecutor.FlushOutput` | src/remote_shell/command_executor.cc:142-160 | Sends the buffer, and is scheduled again unless stopped |
| `OutputBuffer.CommandExecutor.OnStop` | src/remote_shell/command_executor.cc:81-98 | The buffer, then the exit message |
| `ByteBuffer.AppendsAreCheap` | src/dpe_base/utility/utility_impl.cc:37-84 | Over any run of appends to a fresh buffer, growing copies at most twice the final size, and capacity stays a multiple of eight not below the size |
| `ByteBuffer.FreshIs` | src/dpe_base/utility/utility_impl.cc:13-20 | A fresh buffer has the wanted capacity rounded up to eights, or eight |
| `ByteBuffer.GrowIs` | src/dpe_base/utility/utility_impl.cc:73-84 | Growing does nothing if the size fits, and else copies the contents once into the next multiple of eight |
| `ByteBuffer.AppendIs` | src/dpe_base/utility/utility_impl.cc:37-47 | An append that does not fit makes room for twice the new size; one that fits copies nothing |
| `ByteBuffer.Buffer.constructor` | src/dpe_base/utility/utility_impl.cc:13-20 | Empty, with the length rounded up to a multiple of eight |
| `ByteBuffer.Buffer.Append` | src/dpe_base/utility/utility_impl.cc:37-47 | Contents are extended by exactly the bytes; cost as in the cost model |
| `ByteBuffer.Buffer.Resize` | src/dpe_base/utility/utility_impl.cc:49-55 | Contents agree up to the smaller size; a negative size is stored as it is; returns the old size |
| `ByteBuffer.Buffer.Reserve` | src/dpe_base/utility/utility_impl.cc:57-62 | Contents unchanged, capacity large enough; returns the old capacity |
| `ByteBuffer.Buffer.Memset` | src/dpe_base/utility/utility_impl.cc:64-71 | Exactly the bytes from start, to the end or for the length, are replaced; returns how many |
| `ByteBuffer.Buffer.Grow` | src/dpe_base/utility/utility_impl.cc:73-84 | Contents unchanged, capacity rounded up to a multiple of eight, never lowered |
| `RangeTasks.BlocksTile` | src/dpe/dpe_util.h:59-67 | The blocks are non-empty, within the block size, consecutive, and reach from the first element to the last |
| `RangeTasks.ElementInItsBlockOnly` | src/dpe/dpe_util.h:59-67 | Element k lies in block (k - first) / block + 1 and in no other |
| `RangeTasks.NothingElse` | src/dpe/dpe_util.h:59-67 | Nothing outside the range lies in a block |
| `RangeTasks.CountCovers` | src/dpe/dpe_util.h:22-28 | The count is the least number of blocks that covers the range |
| `RangeTasks.IterationEndsExactly` | src/dpe/dpe_util.h:53-57 | Stepping from begin() meets end() if and only if last - first + 1 is at least 2 - 2 * block_size, which holds for every non-empty or empty range |
| `RangeTasks.ReversedRangeMissesEnd` | src/dpe/dpe_util.h:53-57 | A range whose iteration misses its end: from 0 down to -2 in blocks of one |
| `RangeTasks.RangeBasedTaskGenerator.constructor` | src/dpe/dpe_util.h:22-28 | First and last task of a range |
| `RangeTasks.RangeBasedTaskGenerator.SetRange` | src/dpe/dpe_util.h:32-42 | The same for a new range |
| `RangeTasks.RangeBasedTaskGenerator.ToRange` | src/dpe/dpe_util.h:59-67 | The bounds of a block |
| `Deploy.EngineRunsInOrder` | src/remote_shell/script_engine.cc:154-248 | The engine runs a compiled script to its end: operations in id order, each at most once, none after the first failure, all of them exactly when all before the last succeed |
| `Deploy.CompiledIsChain` | src/remote_shell/script_engine.cc:56-89 | Compiled operations have ids in order, lead to their successor or to EXIT, exit on failure, and carry their own host and commands |
| `Deploy.Compile` | src/remote_shell/script_engine.cc:24-112 | Every refusal, an unknown action included, and the operations of an accepted package that has a host, for both actions |
| `Deploy.CompileStop` | src/remote_shell/script_engine.cc:90-107 | The operations of the stop action, numbered through, each leading to EXIT |
| `Deploy.StopRunsFirstOnly` | src/remote_shell/script_engine.cc:97-102 | The stop action reaches only the first host, whatever the outcome |
| `Deploy.CompileSteps` | src/remote_shell/script_engine.cc:56-88 | The operations of all steps, numbered through |
| `Deploy.AddHosts` | src/remote_shell/script_engine.cc:79-87 | One operation for each host, numbered on |
| `Deploy.CompileCommands` | src/remote_shell/script_engine.cc:59-77 | The commands of a step: mkdir, transfers, own commands |
| `Deploy.CommandsAre` | src/remote_shell/script_engine.cc:59-77 | The commands of a step in order: mkdir if there is a target directory; for each file its transfer from its path to its name under that directory, with one slash between; the step's own commands |
| `Deploy.JobsAre` | src/remote_shell/script_engine.cc:58-107 | The operations of both actions in order: for each step each of its hosts, with that step's commands of the action |
| `Deploy.ExecuteNextIs` | src/remote_shell/script_engine.cc:220-248 | The engine starts the first operation with the next id, and exits if that is EXIT or if there is none |
| `Deploy.SingleCommandRunsOnce` | src/remote_shell/script_engine.cc:137-152 | A single command line is started once, and then the engine exits |
| `Deploy.FstLinesTokenizeExactly` | src/remote_shell/script_engine.cc:68-72 | Each compiled transfer line splits back into its three tokens if and only if both paths are non-empty, without spaces, and do not start with a quote |
| `Deploy.SpacedPathIsSplit` | src/remote_shell/script_engine.cc:68-72 | A transfer line with a space in a path, which splits into four tokens |
| `Deploy.ScriptEngine.OnStop` | src/remote_shell/script_engine.cc:154-164 | The next operation after a success or a failure |
| `Deploy.ScriptEngine.ExecuteNextOperation` | src/remote_shell/script_engine.cc:220-248 | Starts the first operation with the next id, or exits |
| `Tokenizer.JoinTokenizesExactly` | src/remote_shell/local_server_node.cc:74-104 | Tokens joined by single spaces split back into exactly the same list if and only if each is non-empty, without spaces, and does not start with a quote |
| `Tokenizer.QuotedIs` | src/remote_shell/local_server_node.cc:80-96 | A quoted token is all that stands between its quotes; it ends at the next quote, except one at position 93 when it reaches over position 92; without an end it is lost |
| `Tokenizer.QuotedIsToken` | src/remote_shell/local_server_node.cc:80-96 | A closed quoted token is added, and scanning goes on behind it |
| `Tokenizer.TokensFit` | src/remote_shell/local_server_node.cc:74-104 | Tokens with one separator each fit in their line, with slack if one of them needed quotes |
| `Tokenizer.Tokenize` | src/remote_shell/local_server_node.cc:74-104 | The nested loops compute the recursive definition, for every line |

## Left out

- ZeroMQ, Win32 events, thread start and stop handshakes, and control-socket messages: foreign calls; waking the poll thread is a step that may happen at any time.
- Failures of zmq_recvmsg and zmq_send inside the server and the client: a signalled socket yields a message, and a reply sent is a reply recorded.
- The client's `TerminateThread` fallback in `Stop`, and `SendRequest` calls that fail before the request is listed: only a poll thread that has left, and a request that went out, are modelled.
- Changes to the server's set of contexts while it works: the set is fixed, of any size.
- Protobuf encoding, the text format, and reading and writing files: faithful copies of abstract records; a file that cannot be read or parsed counts as missing.
- The HTTP status pages and the worker statistics (request count, latency, update time, finished tasks) that only they show.
- The grouping of results into calls of `SetResult`, and its total time: the model keeps the sequence of results delivered.
- Repeated task ids, and a `Compute` that is not a function of the task id: the exactness of the answer rests on both.
- Fairness: that a run does reach Finish depends on workers and network; when it still can is `Stalling.FinishInReachExactly`, and that a restart always can is `Recovery.RecoveryIsPossible`.
- Wrap-around of ticks, cookies, counts and 64-bit products: integers are unbounded.
- `WorkerModel.SuggestedSizeFits`: times are reals, so the rounding of floating point is not modelled; the final limits of 1 and 100 do not depend on it.
- WeakPtrData as a class: its counters change under the interference of other threads, which a method body cannot express, so `WeakPointer` models each atomic operation as a step on values.
- The smart-pointer operators, `QueryInterface`, `RefCountedObjectModel` and `NormalObjectModel`: pointer copies, moves and drops are the steps AddRef, Give and Release.
- The two server threads and the two client threads as classes: a class holds the loops of each critical section, and the interleaving is a step system on values.
- Delays and periods of the timer: queued tasks fire in any order, which includes the timed one; a missing host would drop the report of the end.
- The executor's printing on its own console.
- `ByteBuffer.Buffer.Resize`: bytes beyond the old size are arbitrary, as in the source.
- `ByteBuffer.Buffer.Append`: what follows a resize to a negative size, and a fill that starts beyond the contents, have no defined result in the source.
- The methods `nextTask`, `firstTask` and `lastTask` of the range generator: plain field reads; a task id outside the range is excluded by the source's own assertion.
- `Deploy.EngineRunsInOrder`: each started operation is taken to stop once; an operation that never stops, or stops twice, is the shell's affair.
- Accepted packages without any host, for which the source has no defined result.
- Path resolution and existence tests of the deploy script: parameters of `Deploy.Compile`.
- `Tokenizer.JoinTokenizesExactly`: the round trip is for tokens joined without quoting; quoted tokens are modelled as the source reads them, where it is the position 92, not a backslash, that takes two characters together.
- The remote shell's sessions, processes, file transfer and internal commands, the dictionary and list utilities, the thread pool, and the dialogs: input and output, or easy members.
