/** The ring buffer that retains headers for reorg detection. */
module Bounded {

  /** The newest `capacity` elements of `s`, oldest first. */
  function Newest<T>(s: seq<T>, capacity: nat): (r: seq<T>)
    ensures |r| == if |s| <= capacity then |s| else capacity
  {
    if |s| <= capacity then s else s[|s| - capacity..]
  }

  lemma NewestOfNewest<T>(s: seq<T>, x: T, capacity: nat)
    requires 0 < capacity
    ensures Newest(Newest(s, capacity) + [x], capacity) == Newest(s + [x], capacity)
  {
  }

  /**
   A deque that overwrites its oldest element once it is full. Without capacity the first element
   makes it allocate some; from then on the capacity is fixed.
   */
  class BoundedVec<T> {
    var data: seq<T>
    var capacity: nat

    ghost predicate Valid()
      reads this
    {
      |data| <= capacity
    }

    constructor (capacity: nat)
      ensures Valid() && data == [] && this.capacity == capacity
    {
      this.capacity := capacity;
      data := [];
    }

    method PushBack(elem: T)
      requires Valid()
      modifies this
      ensures Valid() && 0 < capacity && (0 < old(capacity) ==> capacity == old(capacity))
      ensures data == Newest(old(data) + [elem], capacity)
    {
      if |data| == capacity {
        data := if |data| > 0 then data[1..] else data;
      }
      if capacity == 0 {
        var grown: nat :| 0 < grown;
        capacity := grown;
      }
      data := data + [elem];
    }

    method Extend(elems: seq<T>)
      requires Valid()
      modifies this
      ensures Valid() && (0 < old(capacity) ==> capacity == old(capacity))
      ensures data == Newest(old(data) + elems, capacity)
    {
      ghost var all := old(data);
      for i := 0 to |elems|
        invariant Valid() && (0 < old(capacity) ==> capacity == old(capacity))
        invariant all == old(data) + elems[..i] && data == Newest(all, capacity)
        invariant capacity == 0 ==> all == []
      {
        PushBack(elems[i]);
        NewestOfNewest(all, elems[i], capacity);
        all := all + [elems[i]];
        assert elems[..i + 1] == elems[..i] + [elems[i]];
      }
      assert elems[..|elems|] == elems;
    }

    method Clear()
      requires Valid()
      modifies this
      ensures Valid() && data == [] && capacity == old(capacity)
    {
      data := [];
    }

    /** Takes out the elements in a range; the source panics when it is not one. */
    method Drain(from: nat, end: nat) returns (drained: seq<T>)
      requires Valid() && from <= end <= |data|
      modifies this
      ensures Valid() && capacity == old(capacity)
      ensures drained == old(data)[from..end] && data == old(data)[..from] + old(data)[end..]
    {
      drained := data[from..end];
      data := data[..from] + data[end..];
    }
  }
}
