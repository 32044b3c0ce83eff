/** The growable byte buffer: contents, capacity, and what growing costs over any run of appends. */
module ByteBuffer {
  import opened Common

  newtype byte = x: int | 0 <= x < 256

  /** Shifting right and left by three: up to the next multiple of eight. */
  function RoundUp(n: int): (r: int)
    ensures n <= r < n + 8 && r % 8 == 0
  {
    (n + 7) / 8 * 8
  }

  // ----- the cost of growing -----

  /** Capacity, size, and the bytes copied by grow so far. */
  datatype Cost = Cost(capacity: int, size: int, copied: int)

  function GrowCost(c: Cost, dest: int): Cost {
    if RoundUp(dest) > c.capacity then c.(capacity := RoundUp(dest), copied := c.copied + c.size) else c
  }

  function AppendCost(c: Cost, n: int): Cost {
    var c1 := if c.capacity - c.size < n then GrowCost(c, (n + c.size) * 2) else c;
    c1.(size := c1.size + n)
  }

  function FreshCost(length: int): Cost {
    Cost(RoundUp(if length <= 0 then 8 else length), 0, 0)
  }

  function Appends(c: Cost, sizes: seq<nat>): Cost {
    if sizes == [] then c else AppendCost(Appends(c, sizes[..|sizes|-1]), sizes[|sizes|-1])
  }

  function SumOf(sizes: seq<nat>): nat {
    if sizes == [] then 0 else SumOf(sizes[..|sizes|-1]) + sizes[|sizes|-1]
  }

  ghost predicate GoodShape(c: Cost) {
    0 <= c.size <= c.capacity && c.capacity % 8 == 0 && c.capacity >= 8
  }

  /** A fresh buffer holds at least the wanted length, rounded up to eights; eight if none is wanted. */
  lemma FreshIs(length: int)
    ensures var c := FreshCost(length);
            && c.size == 0 && c.copied == 0 && c.capacity % 8 == 0
            && if length <= 0 then c.capacity == 8 else length <= c.capacity < length + 8
  {
  }

  /** Growing to `dest` does nothing if that fits, and else copies the contents into the next multiple of eight. */
  lemma GrowIs(c: Cost, dest: int)
    requires GoodShape(c)
    ensures var c' := GrowCost(c, dest);
            && c'.size == c.size
            && if dest <= c.capacity then c' == c
               else dest <= c'.capacity < dest + 8 && c'.capacity % 8 == 0 && c'.copied == c.copied + c.size
  {
  }

  /** An append that does not fit makes room for twice what there will be; one that fits copies nothing. */
  lemma AppendIs(c: Cost, n: nat)
    requires GoodShape(c)
    ensures var c' := AppendCost(c, n);
            && c'.size == c.size + n
            && if c.size + n <= c.capacity then c'.capacity == c.capacity && c'.copied == c.copied
               else 2 * (c.size + n) <= c'.capacity < 2 * (c.size + n) + 8 && c'.capacity % 8 == 0
                    && c'.copied == c.copied + c.size
  {
    GrowIs(c, (n + c.size) * 2);
  }

  /**
   Growing is paid for: what has been copied fits in the capacity as well as in
   twice the size, and the next growth at least doubles both.
   */
  ghost predicate Cheap(c: Cost) {
    GoodShape(c) && 0 <= c.copied <= c.capacity && c.copied <= 2 * c.size
  }

  lemma AppendKeepsCheap(c: Cost, n: nat)
    requires Cheap(c)
    ensures Cheap(AppendCost(c, n)) && AppendCost(c, n).size == c.size + n
  {
    if c.capacity - c.size < n {
      assert RoundUp((n + c.size) * 2) > c.capacity ==> c.copied + c.size <= 2 * (c.size + n);
    }
  }

  /** Over any run of appends to a fresh buffer, growing copies at most twice as many bytes as it ends up with. */
  lemma {:induction false} AppendsAreCheap(length: int, sizes: seq<nat>)
    ensures var c := Appends(FreshCost(length), sizes);
            && c.size == SumOf(sizes)
            && c.copied <= 2 * c.size
            && GoodShape(c) && 0 <= c.copied <= c.capacity
  {
    if sizes == [] {
    } else {
      var n := |sizes| - 1;
      AppendsAreCheap(length, sizes[..n]);
      AppendKeepsCheap(Appends(FreshCost(length), sizes[..n]), sizes[n]);
    }
  }

  // ----- the buffer -----

  class Buffer {
    var data: array<byte>
    var size: int
    var capacity: int
    ghost var copied: int

    ghost predicate Valid()
      reads this
    {
      GoodShape(Costs()) && data.Length == capacity
    }

    ghost function Costs(): Cost
      reads this
    {
      Cost(capacity, size, copied)
    }

    ghost function Contents(): seq<byte>
      requires Valid()
      reads this, data
    {
      data[..size]
    }

    constructor (length: int)
      ensures Valid() && Costs() == FreshCost(length) && Contents() == [] && fresh(data)
    {
      var n := if length <= 0 then 8 else length;
      n := (n + 7) / 8 * 8;
      capacity, size, copied := n, 0, 0;
      data := new byte[n];
    }

    method Append(bytes: seq<byte>)
      requires Valid()
      modifies this, data
      ensures Valid() && (data == old(data) || fresh(data))
      ensures Contents() == old(Contents()) + bytes
      ensures Costs() == AppendCost(old(Costs()), |bytes|)
    {
      var available := capacity - size;
      if available < |bytes| {
        Grow((|bytes| + size) * 2);
      }
      ghost var before := data[..size];
      forall k | 0 <= k < |bytes| {
        data[size + k] := bytes[k];
      }
      size := size + |bytes|;
      assert data[..size] == before + bytes;
    }

    /** Returns the old size; new bytes, if any, are arbitrary. A negative size is stored as it is. */
    method Resize(newSize: int) returns (oldSize: int)
      requires Valid()
      modifies this
      ensures (Valid() <==> newSize >= 0) && (data == old(data) || fresh(data))
      ensures oldSize == old(size) && Costs() == GrowCost(old(Costs()), newSize).(size := newSize)
      ensures newSize >= 0 ==> Contents()[..Min(oldSize, newSize)] == old(Contents())[..Min(oldSize, newSize)]
      ensures newSize < 0 ==> data == old(data)
    {
      oldSize := size;
      Grow(newSize);
      size := newSize;
    }

    /** Returns the old capacity. */
    method Reserve(wanted: int) returns (oldCapacity: int)
      requires Valid()
      modifies this
      ensures Valid() && (data == old(data) || fresh(data))
      ensures oldCapacity == old(capacity) && Costs() == GrowCost(old(Costs()), wanted)
      ensures capacity >= wanted && capacity >= oldCapacity
      ensures Contents() == old(Contents())
    {
      oldCapacity := capacity;
      Grow(wanted);
    }

    /**
     Fills from `start`: to the end if the length is not positive, and never
     beyond the end. Returns the number of bytes set.
     */
    method Memset(start: int, c: byte, length: int) returns (count: int)
      requires Valid() && 0 <= start <= size
      modifies data
      ensures Valid() && data == old(data)
      ensures count == if length <= 0 then size - start else Min(length, size - start)
      ensures Contents() == old(Contents())[..start] + seq(count, _ => c) + old(Contents())[start + count..]
    {
      var end := if length <= 0 then size else Min(start + length, size);
      forall k | start <= k < end {
        data[k] := c;
      }
      count := end - start;
    }

    method Grow(dest: int)
      requires Valid()
      modifies this
      ensures Valid() && Contents() == old(Contents()) && (data == old(data) || fresh(data))
      ensures Costs() == GrowCost(old(Costs()), dest) && capacity >= dest
      ensures RoundUp(dest) <= old(capacity) ==> data == old(data)
    {
      var newCapacity := (dest + 7) / 8 * 8;
      if newCapacity > capacity {
        capacity := newCapacity;
        var buffer := new byte[capacity];
        forall k | 0 <= k < size {
          buffer[k] := data[k];
        }
        copied := copied + size;
        data := buffer;
      }
    }
  }
}
