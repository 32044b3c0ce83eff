/**
 The master node as a value: its queues, its task table, its per-worker lists,
 the state file it writes, and what it has told the solver since it started.
 */
module MasterModel {
  import opened Common
  import opened Tasks

  /** The contents of the state file. */
  datatype Snapshot = Snapshot(items: map<int, TaskItem>, lists: map<string, seq<int>>)

  datatype Master = Master(
    queue: seq<int>,                    // task_queue_
    pending: seq<int>,                  // task_pending_queue_
    running: set<int>,                  // task_running_queue_
    items: map<int, TaskItem>,          // task_map_
    lists: map<string, seq<int>>,       // worker_map_: each worker's running_task
    lastSave: int,                      // last_save_time_
    file: Option<Snapshot>,             // the state file on disk
    received: seq<TaskResult>,          // everything passed to the solver's SetResult since the start
    finishes: seq<seq<TaskResult>>,     // what the solver had received at each call of its Finish
    exiting: bool)                      // WillExitDpe has been called

  // ----- get_task -----

  function ItemOf(items: map<int, TaskItem>, id: int): TaskItem {
    if id in items then items[id] else FRESH_ITEM
  }

  function ListOf(lists: map<string, seq<int>>, w: string): seq<int> {
    if w in lists then lists[w] else []
  }

  function WithWorker(m: Master, w: string): Master {
    m.(lists := m.lists[w := ListOf(m.lists, w)])
  }

  function HandOutOne(m: Master, w: string): Master
    requires m.pending != []
  {
    var id := m.pending[0];
    m.(pending := m.pending[1..],
       running := m.running + {id},
       items := m.items[id := ItemOf(m.items, id).(status := Running)],
       lists := m.lists[w := ListOf(m.lists, w) + [id]])
  }

  function HandOut(m: Master, w: string, n: nat): Master
    decreases n
  {
    if n == 0 || m.pending == [] then m else HandOut(HandOutOne(m, w), w, n - 1)
  }

  lemma HandOutUnfolds(m: Master, w: string, n: nat)
    requires n > 0 && m.pending != []
    ensures HandOut(m, w, n) == HandOut(HandOutOne(m, w), w, n - 1)
    ensures HandOutOne(m, w).pending == m.pending[1..]
  {
  }

  function BatchSize(m: Master, maxTaskCount: int): nat {
    Min(Max(maxTaskCount, 1), |m.pending|)
  }

  // ----- finish_compute -----

  function AcceptOne(m: Master, r: TaskResult): Master {
    if r.id in m.running then
      m.(running := m.running - {r.id},
         items := m.items[r.id := TaskItem(Done, r.result, r.timeUsage)],
         received := m.received + [r])
    else m
  }

  function AcceptAll(m: Master, rs: seq<TaskResult>): Master {
    if rs == [] then m else AcceptOne(AcceptAll(m, rs[..|rs|-1]), rs[|rs|-1])
  }

  function Without(s: seq<int>, removed: set<int>): seq<int> {
    if s == [] then []
    else Without(s[..|s|-1], removed) + if s[|s|-1] in removed then [] else [s[|s|-1]]
  }

  function IdSet(rs: seq<TaskResult>): set<int> {
    set k | 0 <= k < |rs| :: rs[k].id
  }

  function DropReported(m: Master, w: string, removed: set<int>): Master {
    m.(lists := m.lists[w := Without(ListOf(m.lists, w), removed)])
  }

  predicate AllDone(m: Master) {
    m.pending == [] && m.running == {}
  }

  function Finish(m: Master): Master {
    m.(finishes := m.finishes + [m.received], exiting := true)
  }

  const MICROSECONDS_PER_MINUTE := 60_000_000

  /** Whole minutes, truncated toward zero. */
  function InMinutes(delta: int): int {
    if delta >= 0 then delta / MICROSECONDS_PER_MINUTE else -((-delta) / MICROSECONDS_PER_MINUTE)
  }

  predicate SaveDue(m: Master, force: bool, now: int) {
    force || m.lastSave == 0 || InMinutes(now - m.lastSave) > 3
  }

  function Save(m: Master, force: bool, now: int): Master {
    if SaveDue(m, force, now) then m.(file := Some(Snapshot(m.items, m.lists)), lastSave := now) else m
  }

  function Conclude(m: Master, now: int): Master {
    if AllDone(m) then Finish(Save(m, true, now)) else Save(m, false, now)
  }

  function Reported(m: Master, w: string, rs: seq<TaskResult>, now: int): Master {
    var m1 := DropReported(AcceptAll(m, rs), w, IdSet(rs));
    if |rs| > 0 then Conclude(m1, now) else m1
  }

  // ----- requests -----

  function Handle(m: Master, req: Request, now: int): Master {
    var m0 := WithWorker(m, req.worker);
    match req
    case GetTask(w, n) => HandOut(m0, w, Max(n, 1))
    case FinishCompute(w, rs) => Reported(m0, w, rs, now)
    case OtherRequest(_) => m0
  }

  function ReplyTo(m: Master, req: Request): Reply {
    match req
    case GetTask(_, n) => TaskBatch(m.pending[..BatchSize(m, n)])
    case FinishCompute(_, _) => Acknowledged
    case OtherRequest(_) => Unhandled
  }

  // ----- start and reload -----

  predicate DoneIn(items: map<int, TaskItem>, id: int) {
    id in items && items[id].status == Done
  }

  /** The ids of `queue` not yet done according to `items`, in queue order. */
  function NotDone(queue: seq<int>, items: map<int, TaskItem>): seq<int> {
    if queue == [] then []
    else NotDone(queue[..|queue|-1], items) + if DoneIn(items, queue[|queue|-1]) then [] else [queue[|queue|-1]]
  }

  function Cached(queue: seq<int>, items: map<int, TaskItem>): seq<TaskResult> {
    if queue == [] then []
    else
      var id := queue[|queue|-1];
      Cached(queue[..|queue|-1], items) +
      if DoneIn(items, id) then [TaskResult(id, items[id].result, items[id].timeUsage)] else []
  }

  function Fresh(queue: seq<int>, file: Option<Snapshot>): Master {
    Master(queue, queue, {}, map id | id in queue :: FRESH_ITEM, map[], 0, file, [], [], false)
  }

  function Load(m: Master, snap: Snapshot): Master {
    m.(pending := NotDone(m.queue, snap.items),
       items := map id | id in m.items ::
                  if id in m.queue && DoneIn(snap.items, id) then snap.items[id] else m.items[id],
       lists := m.lists + map w | w in snap.lists :: [],
       received := m.received + Cached(m.queue, snap.items))
  }

  function Start(queue: seq<int>, file: Option<Snapshot>, readState: bool): Master {
    var m0 := Fresh(queue, file);
    if !readState then m0
    else
      var m1 := if file.Some? then Load(m0, file.value) else m0;
      if AllDone(m1) then Finish(m1) else m1
  }
}
