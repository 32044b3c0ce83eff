/** Vocabulary shared by the master, the workers and the protocol between them. */
module Tasks {
  import opened Common

  datatype Status = Pending | Running | Done

  /** The stored record of a task; the defaults are those of an unset message field. */
  datatype TaskItem = TaskItem(status: Status, result: int, timeUsage: int)

  const FRESH_ITEM := TaskItem(Pending, 0, 0)

  datatype TaskResult = TaskResult(id: int, result: int, timeUsage: int)

  datatype Request =
    | GetTask(worker: string, maxTaskCount: int)
    | FinishCompute(worker: string, results: seq<TaskResult>)
    | OtherRequest(worker: string)

  datatype Reply =
    | TaskBatch(tasks: seq<int>)
    | Acknowledged
    | Unhandled

  function Ids(rs: seq<TaskResult>): (ids: seq<int>)
    ensures |ids| == |rs| && forall k :: 0 <= k < |rs| ==> ids[k] == rs[k].id
  {
    seq(|rs|, k requires 0 <= k < |rs| => rs[k].id)
  }

  /** Every result is the one `compute` yields for its task. */
  ghost predicate Truthful(compute: int -> int, rs: seq<TaskResult>) {
    forall k :: 0 <= k < |rs| ==> rs[k].result == compute(rs[k].id)
  }

  /** `got` names each task of `queue` exactly once, with its true result. */
  ghost predicate Exact(queue: seq<int>, compute: int -> int, got: seq<TaskResult>) {
    && multiset(Ids(got)) == multiset(queue)
    && Truthful(compute, got)
  }

  // ----- an accumulating solver -----

  function Total(rs: seq<TaskResult>): int {
    if rs == [] then 0 else Total(rs[..|rs|-1]) + rs[|rs|-1].result
  }

  function SequentialTotal(queue: seq<int>, compute: int -> int): int {
    if queue == [] then 0 else SequentialTotal(queue[..|queue|-1], compute) + compute(queue[|queue|-1])
  }

  lemma {:induction false} TotalOfTrueResults(compute: int -> int, rs: seq<TaskResult>)
    requires Truthful(compute, rs)
    ensures Total(rs) == SequentialTotal(Ids(rs), compute)
  {
    if rs == [] {
    } else {
      TotalOfTrueResults(compute, rs[..|rs|-1]);
      assert Ids(rs)[..|rs|-1] == Ids(rs[..|rs|-1]);
    }
  }

  lemma {:induction false} SequentialTotalRemove(s: seq<int>, k: nat, compute: int -> int)
    requires k < |s|
    ensures SequentialTotal(s, compute) == SequentialTotal(s[..k] + s[k+1..], compute) + compute(s[k])
  {
    if k == |s| - 1 {
      assert s[..k] + s[k+1..] == s[..|s|-1];
    } else {
      var u := s[..k] + s[k+1..];
      assert u[..|u|-1] == s[..|s|-1][..k] + s[..|s|-1][k+1..];
      SequentialTotalRemove(s[..|s|-1], k, compute);
    }
  }

  lemma MultisetRemove(s: seq<int>, k: nat)
    requires k < |s|
    ensures multiset(s) == multiset(s[..k] + s[k+1..]) + multiset{s[k]}
  {
    assert s == s[..k] + [s[k]] + s[k+1..];
  }

  lemma MultisetCancel(a: multiset<int>, b: multiset<int>, x: int)
    requires a + multiset{x} == b + multiset{x}
    ensures a == b
  {
    forall y ensures a[y] == b[y] { assert (a + multiset{x})[y] == (b + multiset{x})[y]; }
  }

  lemma {:induction false} SequentialTotalPermutes(s: seq<int>, t: seq<int>, compute: int -> int)
    requires multiset(s) == multiset(t)
    ensures SequentialTotal(s, compute) == SequentialTotal(t, compute)
    decreases |s|
  {
    if s == [] {
      assert |multiset(t)| == |t|;
    } else {
      var n := |s| - 1;
      assert s[n] in multiset(t);
      var k :| 0 <= k < |t| && t[k] == s[n];
      MultisetRemove(s, n);
      MultisetRemove(t, k);
      assert s[..n] + s[n+1..] == s[..n];
      MultisetCancel(multiset(s[..n]), multiset(t[..k] + t[k+1..]), s[n]);
      SequentialTotalPermutes(s[..n], t[..k] + t[k+1..], compute);
      SequentialTotalRemove(t, k, compute);
    }
  }

  /** The sum an accumulating solver ends with is the one a sequential loop would compute. */
  lemma ExactTotal(queue: seq<int>, compute: int -> int, got: seq<TaskResult>)
    requires Exact(queue, compute, got)
    ensures Total(got) == SequentialTotal(queue, compute)
  {
    TotalOfTrueResults(compute, got);
    SequentialTotalPermutes(Ids(got), queue, compute);
  }
}
