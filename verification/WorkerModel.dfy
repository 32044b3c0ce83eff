/**
 A worker node: `thread_number` slots, each cycling through asking for tasks,
 computing them and reporting them, until a failed or empty answer retires it.
 */
module WorkerModel {
  import opened Tasks

  datatype Slot =
    | Getting                          // a get_task request is outstanding
    | Computing(tasks: seq<int>)       // a batch runs in the blocking pool
    | Finishing(suggested: int)        // a finish_compute request is outstanding
    | Retired

  datatype Worker = Worker(slots: seq<Slot>, runningTaskCount: int, exitRequested: bool)

  datatype WorkerEvent =
    | GetFailed(slot: nat)
    | GotTasks(slot: nat, tasks: seq<int>)
    | ComputeDone(slot: nat, totalTime: int)
    | FinishFailed(slot: nat)
    | FinishAccepted(slot: nat)

  function StartWorker(threads: nat): Worker {
    Worker(seq(threads, _ => Getting), 0, false)
  }

  /** An unsuccessful answer: the slot makes no further request; the process exits if nothing runs. */
  function Retire(w: Worker, i: nat): Worker
    requires i < |w.slots|
  {
    w.(slots := w.slots[i := Retired], exitRequested := w.exitRequested || w.runningTaskCount == 0)
  }

  predicate Enabled(w: Worker, e: WorkerEvent) {
    && e.slot < |w.slots|
    && match e
       case GetFailed(i) => w.slots[i].Getting?
       case GotTasks(i, _) => w.slots[i].Getting?
       case ComputeDone(i, _) => w.slots[i].Computing?
       case FinishFailed(i) => w.slots[i].Finishing?
       case FinishAccepted(i) => w.slots[i].Finishing?
  }

  /** One callback of the worker; an event that cannot happen changes nothing. */
  function Step(w: Worker, e: WorkerEvent, batchSize: int): Worker {
    if !Enabled(w, e) then w else
    match e
    case GetFailed(i) => Retire(w, i)
    case GotTasks(i, tasks) =>
      if tasks == [] then Retire(w, i)
      else w.(slots := w.slots[i := Computing(tasks)], runningTaskCount := w.runningTaskCount + 1)
    case ComputeDone(i, t) =>
      w.(slots := w.slots[i := Finishing(SuggestedSize(batchSize, |w.slots[i].tasks|, t))],
         runningTaskCount := w.runningTaskCount - 1)
    case FinishFailed(i) => Retire(w, i)
    case FinishAccepted(i) => w.(slots := w.slots[i := Getting])
  }

  function Steps(w: Worker, es: seq<WorkerEvent>, batchSize: int): Worker {
    if es == [] then w else Step(Steps(w, es[..|es|-1], batchSize), es[|es|-1], batchSize)
  }

  // ----- the requests -----

  /** Conversion to an integer type: truncation toward zero. */
  function Truncate(r: real): int {
    if r >= 0.0 then r.Floor else -((-r).Floor)
  }

  function PerTaskTime(totalTime: int, size: int): real
    requires size > 0
  {
    totalTime as real * 0.000001 / size as real
  }

  function SuggestedSize(batchSize: int, size: int, totalTime: int): int {
    if size > 0 && batchSize < 0 then
      var actual := PerTaskTime(totalTime, size);
      var suggested :=
        if actual > 0.01 || -actual > 0.01 then
          var can := Truncate((-batchSize) as real / actual);
          if can > 100 then 100 else if can <= 0 then 1 else can
        else size + 1;
      if suggested > 100 then 100 else if suggested <= 0 then 1 else suggested
    else 1
  }

  function RequestedCount(batchSize: int, suggested: int): int {
    if batchSize > 0 then batchSize else suggested
  }

  /** The report of a batch. */
  function Report(tasks: seq<int>, results: seq<int>, times: seq<int>): (rs: seq<TaskResult>)
    requires |tasks| == |results| == |times|
    ensures |rs| == |tasks|
  {
    seq(|tasks|, k requires 0 <= k < |tasks| => TaskResult(tasks[k], results[k], times[k]))
  }

  // ----- slots and the running count -----

  function ComputingCount(slots: seq<Slot>): nat {
    if slots == [] then 0
    else ComputingCount(slots[..|slots|-1]) + if slots[|slots|-1].Computing? then 1 else 0
  }

  lemma {:induction false} CountUpdate(slots: seq<Slot>, i: nat, s: Slot)
    requires i < |slots|
    ensures ComputingCount(slots[i := s]) == ComputingCount(slots)
              - (if slots[i].Computing? then 1 else 0) + (if s.Computing? then 1 else 0)
  {
    var n := |slots| - 1;
    if i < n {
      assert slots[i := s][..n] == slots[..n][i := s];
      CountUpdate(slots[..n], i, s);
    } else {
      assert slots[i := s][..n] == slots[..n];
    }
  }

  lemma {:induction false} CountZero(slots: seq<Slot>)
    ensures ComputingCount(slots) == 0 <==> forall k :: 0 <= k < |slots| ==> !slots[k].Computing?
  {
    if slots == [] {
    } else {
      CountZero(slots[..|slots|-1]);
      assert slots == slots[..|slots|-1] + [slots[|slots|-1]];
    }
  }

  ghost predicate AllRetired(w: Worker) {
    forall k :: 0 <= k < |w.slots| ==> w.slots[k].Retired?
  }

  ghost predicate NoneComputing(w: Worker) {
    forall k :: 0 <= k < |w.slots| ==> !w.slots[k].Computing?
  }

  ghost predicate WorkerInv(w: Worker) {
    && w.runningTaskCount == ComputingCount(w.slots)
    && (|w.slots| > 0 && AllRetired(w) ==> w.exitRequested)
  }

  lemma StartKeepsWorker(threads: nat)
    ensures WorkerInv(StartWorker(threads)) && !StartWorker(threads).exitRequested
    ensures |StartWorker(threads).slots| == threads
    ensures forall k :: 0 <= k < threads ==> StartWorker(threads).slots[k] == Getting
  {
    var w := StartWorker(threads);
    CountZero(w.slots);
    if threads > 0 { assert w.slots[0] == Getting; }
  }

  /** Does this event end its slot? */
  predicate Retires(w: Worker, e: WorkerEvent) {
    Enabled(w, e) && (e.GetFailed? || e.FinishFailed? || (e.GotTasks? && e.tasks == []))
  }

  /** One callback: the count stays right, and exit is requested exactly when a slot retires while none computes. */
  lemma StepKeepsWorker(w: Worker, e: WorkerEvent, batchSize: int)
    requires WorkerInv(w)
    ensures WorkerInv(Step(w, e, batchSize)) && |Step(w, e, batchSize).slots| == |w.slots|
    ensures Step(w, e, batchSize).exitRequested <==>
              w.exitRequested || (Retires(w, e) && NoneComputing(Step(w, e, batchSize)))
  {
    var w' := Step(w, e, batchSize);
    if Enabled(w, e) {
      CountUpdate(w.slots, e.slot, w'.slots[e.slot]);
      CountZero(w.slots);
      CountZero(w'.slots);
      if AllRetired(w') {
        assert w'.slots[e.slot].Retired?;
        assert NoneComputing(w');
      }
    }
  }

  /** The cycle of a slot: what each callback makes of it, and that no other slot moves. */
  lemma SlotCycles(w: Worker, e: WorkerEvent, batchSize: int)
    requires e.slot < |w.slots|
    ensures var w', k := Step(w, e, batchSize), e.slot;
            && |w'.slots| == |w.slots| && (forall j :: 0 <= j < |w.slots| && j != k ==> w'.slots[j] == w.slots[j])
            && match w.slots[k]
               case Getting =>
                 (match e
                  case GotTasks(_, tasks) => w'.slots[k] == if tasks == [] then Retired else Computing(tasks)
                  case GetFailed(_) => w'.slots[k] == Retired
                  case _ => w' == w)
               case Computing(tasks) =>
                 if e.ComputeDone? then w'.slots[k] == Finishing(SuggestedSize(batchSize, |tasks|, e.totalTime))
                 else w' == w
               case Finishing(_) =>
                 (match e
                  case FinishAccepted(_) => w'.slots[k] == Getting
                  case FinishFailed(_) => w'.slots[k] == Retired
                  case _ => w' == w)
               case Retired => w' == w
  {
  }

  /** Over any sequence of callbacks, in any order, of a worker with at least one thread. */
  lemma {:induction false} WorkerRuns(threads: nat, es: seq<WorkerEvent>, batchSize: int)
    ensures var w := Steps(StartWorker(threads), es, batchSize);
            && WorkerInv(w) && |w.slots| == threads
            && (threads > 0 && AllRetired(w) ==> w.exitRequested)
  {
    if es == [] {
      StartKeepsWorker(threads);
    } else {
      WorkerRuns(threads, es[..|es|-1], batchSize);
      StepKeepsWorker(Steps(StartWorker(threads), es[..|es|-1], batchSize), es[|es|-1], batchSize);
    }
  }

  // ----- batch sizes -----

  lemma SuggestedSizeRange(batchSize: int, size: int, totalTime: int)
    ensures 1 <= SuggestedSize(batchSize, size, totalTime) <= 100
  {
  }

  lemma MulMonotone(a: real, b: real, c: real)
    requires c > 0.0
    ensures a <= b ==> a * c <= b * c
    ensures a < b ==> a * c < b * c
  {
  }

  /** A microsecond is 0.000001 of the seconds in which the wanted time is given. */
  lemma PerTaskTimeIs(totalTime: int, size: int)
    requires size > 0
    ensures PerTaskTime(totalTime, size) * size as real * 1000000.0 == totalTime as real
  {
    var q := PerTaskTime(totalTime, size);
    assert q * size as real == totalTime as real * 0.000001;
    assert totalTime as real * 0.000001 * 1000000.0 == totalTime as real;
  }

  lemma ComparePerTask(totalTime: int, size: int, bound: real, scaled: int)
    requires size > 0 && scaled as real == bound * 1000000.0
    ensures PerTaskTime(totalTime, size) > bound <==> totalTime > scaled * size
    ensures PerTaskTime(totalTime, size) < bound <==> totalTime < scaled * size
  {
    PerTaskTimeIs(totalTime, size);
    var q, n := PerTaskTime(totalTime, size), size as real;
    assert scaled as real * n == bound * n * 1000000.0;
    assert (scaled * size) as real == scaled as real * n;
    MulMonotone(q, bound, n);
    MulMonotone(bound, q, n);
  }

  lemma {:induction false} FitsInReals(batchSize: int, size: int, totalTime: int)
    requires batchSize < 0 && size > 0 && PerTaskTime(totalTime, size) > 0.01
    ensures var n := SuggestedSize(batchSize, size, totalTime);
            var actual := PerTaskTime(totalTime, size);
            && (n > 1 ==> n as real * actual <= (-batchSize) as real)
            && (n < 100 ==> (n + 1) as real * actual > (-batchSize) as real)
  {
    var actual, want := PerTaskTime(totalTime, size), (-batchSize) as real;
    var f := (want / actual).Floor;
    var n := SuggestedSize(batchSize, size, totalTime);
    QuotientBounds(want, actual);
    assert f >= 0 by { if f + 1 <= 0 { MulMonotone((f + 1) as real, 0.0, actual); } }
    assert want / actual >= 0.0 && Truncate(want / actual) == f;
    MulMonotone(n as real, f as real, actual);
    MulMonotone((f + 1) as real, (n + 1) as real, actual);
  }

  lemma ScaledTime(n: int, size: int, totalTime: int, want: int)
    requires size > 0
    ensures var actual := PerTaskTime(totalTime, size);
            (n as real * actual <= want as real) <==> n * totalTime <= want * 1_000_000 * size
  {
    PerTaskTimeIs(totalTime, size);
    var q, z := PerTaskTime(totalTime, size), size as real * 1000000.0;
    assert n as real * q * z == n as real * (q * z) == (n * totalTime) as real;
    assert want as real * z == (want * 1_000_000 * size) as real;
    MulMonotone(n as real * q, want as real, z);
    MulMonotone(want as real, n as real * q, z);
  }

  /**
   In timed mode, when the tasks of the last batch took more than 10 ms each: the
   suggestion is the largest number of tasks, within 1 and 100, whose time at that
   rate does not exceed the wanted seconds; one task is the fallback. Times are in
   microseconds.
   */
  lemma {:induction false} SuggestedSizeFits(batchSize: int, size: int, totalTime: int)
    requires batchSize < 0 && size > 0 && totalTime > 10_000 * size
    ensures var n := SuggestedSize(batchSize, size, totalTime);
            && (n > 1 ==> n * totalTime <= -batchSize * 1_000_000 * size)
            && (n < 100 ==> (n + 1) * totalTime > -batchSize * 1_000_000 * size)
  {
    ComparePerTask(totalTime, size, 0.01, 10_000);
    FitsInReals(batchSize, size, totalTime);
    var n := SuggestedSize(batchSize, size, totalTime);
    ScaledTime(n, size, totalTime, -batchSize);
    ScaledTime(n + 1, size, totalTime, -batchSize);
  }

  /** Quick tasks let the batch grow by one, up to 100; a clock that went back, or no timed mode, asks for one. */
  lemma {:induction false} SuggestedSizeElse(batchSize: int, size: int, totalTime: int)
    ensures batchSize >= 0 || size <= 0 ==> SuggestedSize(batchSize, size, totalTime) == 1
    ensures batchSize < 0 && size > 0 && -10_000 * size <= totalTime <= 10_000 * size ==>
              SuggestedSize(batchSize, size, totalTime) == if size < 100 then size + 1 else 100
    ensures batchSize < 0 && size > 0 && totalTime < -10_000 * size ==> SuggestedSize(batchSize, size, totalTime) == 1
  {
    if batchSize < 0 && size > 0 {
      ComparePerTask(totalTime, size, 0.01, 10_000);
      ComparePerTask(totalTime, size, -0.01, -10_000);
      if totalTime < -10_000 * size { NegativeRate((-batchSize) as real, PerTaskTime(totalTime, size)); }
    }
  }

  lemma NegativeRate(want: real, actual: real)
    requires want > 0.0 && actual < 0.0
    ensures Truncate(want / actual) <= 0
  {
    var q := want / actual;
    assert q * actual == want;
    if q > 0.0 { MulMonotone(actual, 0.0, q); }
  }

  lemma QuotientBounds(want: real, actual: real)
    requires actual > 0.0
    ensures var f := (want / actual).Floor;
            f as real * actual <= want && want < (f + 1) as real * actual
  {
    var q := want / actual;
    assert q * actual == want;
    MulMonotone(q.Floor as real, q, actual);
    var next := (q.Floor + 1) as real;
    MulMonotone(q, next, actual);
    assert q < next && want < next * actual;
  }
}
