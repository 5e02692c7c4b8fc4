/** The growable buffer of vector.h: a heap block, the number of elements in use and the
    number of elements allocated. The same doubling scheme is written out again in
    tokens_append_bfr and labels_append, so the token and label lists are Vecs too. */
module Vectors {

  class Vec<T(0)> {
    var data: array<T>
    var len: nat
    var capacity: nat

    /** The block has `capacity` slots and there is always room for the next write. */
    ghost predicate Valid()
      reads this
    {
      data.Length == capacity && 0 < capacity && len < capacity
    }

    /** The elements appended so far, in order. */
    function Contents(): seq<T>
      reads this, data
      requires Valid()
    {
      data[..len]
    }

    /** vec_init: allocate `startingCapacity` slots, none in use. The original's callers all
        pass 100; a zero capacity would make the first append write past the block. */
    constructor Init(startingCapacity: nat)
      requires 0 < startingCapacity
      ensures Valid() && fresh(data)
      ensures len == 0 && capacity == startingCapacity
      ensures Contents() == []
    {
      data := new T[startingCapacity];
      len := 0;
      capacity := startingCapacity;
    }

    /** vec_append: double the block when `len + 1 >= capacity`, then store `x` at `len`. */
    method Append(x: T)
      requires Valid()
      modifies this, data
      ensures Valid()
      ensures len == old(len) + 1
      ensures capacity == if old(len) + 1 >= old(capacity) then 2 * old(capacity) else old(capacity)
      ensures data == old(data) || fresh(data)
      ensures Contents() == old(Contents()) + [x]
    {
      if len + 1 >= capacity {
        // realloc: a block twice as large holding the old block's elements
        var bigger := new T[2 * capacity];
        forall k | 0 <= k < capacity {
          bigger[k] := data[k];
        }
        data := bigger;
        capacity := 2 * capacity;
      }
      data[len] := x;
      len := len + 1;
    }
  }
}
