/** Cutting an integer range into blocks, one task a block. */
module RangeTasks {

  /** Integer division, truncating toward zero. */
  function Quotient(a: int, b: int): int
    requires b > 0
  {
    if a >= 0 then a / b else -((-a) / b)
  }

  datatype Range = Range(first: int, last: int, block: int)

  const FIRST_TASK := 1

  function LastTask(r: Range): int
    requires r.block >= 1
  {
    Quotient(r.last - r.first + 1 + r.block - 1, r.block)
  }

  function Count(r: Range): int
    requires r.block >= 1
  {
    LastTask(r) - FIRST_TASK + 1
  }

  function Low(r: Range, id: int): int { (id - 1) * r.block + r.first }

  function High(r: Range, id: int): int {
    var v := Low(r, id) + r.block - 1;
    if v > r.last then r.last else v
  }

  class RangeBasedTaskGenerator {
    var range: Range
    var firstTask: int
    var lastTask: int

    ghost predicate Valid()
      reads this
    {
      range.block >= 1 && firstTask == FIRST_TASK && lastTask == LastTask(range)
    }

    constructor (first: int, last: int, block: int)
      requires block >= 1
      ensures Valid() && range == Range(first, last, block)
    {
      range := Range(first, last, block);
      var cnt := last - first + 1;
      firstTask := 1;
      lastTask := Quotient(cnt + block - 1, block);
    }

    method SetRange(first: int, last: int, block: int)
      requires block >= 1
      modifies this
      ensures Valid() && range == Range(first, last, block)
    {
      range := Range(first, last, block);
      var cnt := last - first + 1;
      firstTask := 1;
      lastTask := Quotient(cnt + block - 1, block);
    }

    method ToRange(id: int) returns (u: int, v: int)
      requires Valid() && firstTask <= id <= lastTask
      ensures u == Low(range, id) && v == High(range, id)
    {
      u := (id - 1) * range.block + range.first;
      v := u + range.block - 1;
      if v > range.last { v := range.last; }
    }
  }

  lemma QuotientIs(a: int, b: int)
    requires b > 0 && a >= 0
    ensures Quotient(a, b) * b <= a < Quotient(a, b) * b + b && Quotient(a, b) >= 0
  {
  }

  lemma MulNonNegative(x: int, y: int)
    requires x >= 0 && y >= 0
    ensures x * y >= 0
  {
  }

  lemma MulOrder(x: int, y: int, b: int)
    requires b >= 1 && x <= y
    ensures x * b <= y * b && (x < y ==> x * b + b <= y * b)
  {
    MulNonNegative(y - x, b);
    assert (y - x) * b == y * b - x * b;
    if x < y {
      MulNonNegative(y - x - 1, b);
      assert (y - x - 1) * b == (y - x) * b - b;
    }
  }

  /** The number of blocks is the least that covers the range. */
  lemma CountCovers(r: Range)
    requires r.block >= 1 && r.last >= r.first - 1
    ensures Count(r) >= 0
    ensures || (Count(r) - 1) * r.block < r.last - r.first + 1 <= Count(r) * r.block
            || (Count(r) == 0 && r.last == r.first - 1)
  {
    QuotientIs(r.last - r.first + 1 + r.block - 1, r.block);
  }

  /** The blocks are non-empty, within the block size, and follow one another from the first element to the last. */
  lemma BlocksTile(r: Range, id: int)
    requires r.block >= 1 && r.last >= r.first - 1 && 1 <= id <= Count(r)
    ensures r.first <= Low(r, id) <= High(r, id) <= r.last && High(r, id) - Low(r, id) < r.block
    ensures id == 1 ==> Low(r, id) == r.first
    ensures id < Count(r) ==> High(r, id) + 1 == Low(r, id + 1) && High(r, id) - Low(r, id) == r.block - 1
    ensures id == Count(r) ==> High(r, id) == r.last
  {
    CountCovers(r);
    MulOrder(id - 1, Count(r) - 1, r.block);
    MulOrder(id, Count(r), r.block);
    MulOrder(0, id - 1, r.block);
    assert (id - 1) * r.block + r.block == id * r.block;
    assert (Count(r) - 1) * r.block + r.block == Count(r) * r.block;
  }

  /** Every element lies in exactly one block, the one its offset names. */
  lemma ElementInItsBlockOnly(r: Range, k: int, id: int)
    requires r.block >= 1 && r.first <= k <= r.last && 1 <= id <= Count(r)
    ensures 1 <= (k - r.first) / r.block + 1 <= Count(r)
    ensures Low(r, id) <= k <= High(r, id) <==> id == (k - r.first) / r.block + 1
  {
    var b, q := r.block, (k - r.first) / r.block;
    assert q * b <= k - r.first < q * b + b;
    CountCovers(r);
    if q + 1 > Count(r) {
      MulOrder(Count(r), q, b);
      assert false;
    }
    if id - 1 < q { MulOrder(id - 1, q, b); }
    if id - 1 > q { MulOrder(q, id - 1, b); }
  }

  /** No element outside the range lies in any block. */
  lemma NothingElse(r: Range, k: int, id: int)
    requires r.block >= 1 && r.last >= r.first - 1 && 1 <= id <= Count(r)
    requires Low(r, id) <= k <= High(r, id)
    ensures r.first <= k <= r.last
  {
    BlocksTile(r, id);
  }

  /** The task reached from `task` by applying ++ a number of times. */
  function Advance(task: int, steps: nat): int {
    if steps == 0 then task else Advance(task, steps - 1) + 1
  }

  lemma {:induction false} AdvanceIs(task: int, steps: nat)
    ensures Advance(task, steps) == task + steps
  {
    if steps == 0 {
    } else {
      AdvanceIs(task, steps - 1);
    }
  }

  /** Stepping from begin() by ++ meets end(). */
  ghost predicate ReachesEnd(r: Range)
    requires r.block >= 1
  {
    exists steps: nat :: Advance(FIRST_TASK, steps) == LastTask(r) + 1
  }

  lemma ReachesEndIs(r: Range)
    requires r.block >= 1
    ensures ReachesEnd(r) <==> LastTask(r) >= 0
  {
    if LastTask(r) >= 0 {
      AdvanceIs(FIRST_TASK, LastTask(r));
    }
    forall steps: nat ensures Advance(FIRST_TASK, steps) >= 1 { AdvanceIs(FIRST_TASK, steps); }
  }

  /** The range from 0 down to -2, cut into blocks of one: the last task is -1, and ++ leads away from it. */
  lemma ReversedRangeMissesEnd()
    ensures LastTask(Range(0, -2, 1)) == -1 && !ReachesEnd(Range(0, -2, 1))
  {
    ReachesEndIs(Range(0, -2, 1));
  }

  /** Exactly which ranges, empty and reversed ones included, an iteration over the tasks gets through. */
  lemma IterationEndsExactly(r: Range)
    requires r.block >= 1
    ensures ReachesEnd(r) <==> r.last - r.first + 1 >= 2 - 2 * r.block
  {
    ReachesEndIs(r);
    var a, b := r.last - r.first + 1 + r.block - 1, r.block;
    if a >= 0 {
      QuotientIs(a, b);
    } else {
      QuotientIs(-a, b);
      var q := Quotient(-a, b);
      assert LastTask(r) == -q;
      if q >= 1 { MulOrder(1, q, b); }
    }
  }
}
