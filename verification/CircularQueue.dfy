/** The ring of idea/circular_queue.h as one thread sees it. */
module CircularQueues {
  import opened Bits
  import opened Prelude

  type Item = int

  /** The test of Init.  A negative capacity and its predecessor both have their sign bit set, so that
      the test rejects them; zero passes. */
  predicate Accepts(capacity: int) {
    capacity == 0 || (capacity > 0 && And(capacity, capacity - 1) == 0)
  }

  /** Init accepts the powers of two, and zero, for which there is no slot to write to. */
  lemma AcceptsExactly(capacity: int)
    ensures Accepts(capacity) <==> capacity == 0 || (capacity > 0 && IsPow2(capacity))
  {
    if capacity > 0 { AndPredecessor(capacity); }
  }

  /** x modulo n for x below 2n. */
  function Wrap(x: nat, n: nat): nat {
    if x >= n then x - n else x
  }

  /** The mask wraps an index around. */
  lemma MaskWraps(x: nat, capacity: nat)
    requires capacity > 0 && IsPow2(capacity) && x < 2 * capacity
    ensures And(x, capacity - 1) == Wrap(x, capacity) == x % capacity
  {
    var k: nat :| capacity == Pow2(k);
    AndMask(x, k);
    if x >= capacity { DivModUnique(x, capacity, 1, x - capacity); } else { DivModUnique(x, capacity, 0, x); }
  }

  class CircularQueue {
    var queue_: array?<Item>
    var capacity_: int
    var capacity_mask_: int
    var head_: nat
    var tail_: nat
    // What has been pushed and not popped.
    ghost var items: seq<Item>

    ghost predicate Ready()
      reads this, queue_
    {
      && queue_ != null && queue_.Length == capacity_ > 0 && IsPow2(capacity_) && capacity_mask_ == capacity_ - 1
      && head_ < capacity_ && tail_ < capacity_ && |items| < capacity_
      && tail_ == Wrap(head_ + |items|, capacity_)
      && forall i :: 0 <= i < |items| ==> queue_[Wrap(head_ + i, capacity_)] == items[i]
    }

    constructor ()
      ensures queue_ == null && head_ == tail_ == 0 && items == []
    {
      queue_, capacity_, capacity_mask_ := null, 0, 0;
      head_, tail_, items := 0, 0, [];
    }

    /** "enough" is the outcome of the allocation. */
    method Init(capacity: int, enough: bool) returns (ok: bool)
      requires queue_ == null && head_ == tail_ == 0 && items == []
      modifies this
      ensures ok <==> enough && (capacity == 0 || (capacity > 0 && IsPow2(capacity)))
      ensures ok ==> (Ready() <==> capacity > 0)
      ensures ok ==> capacity_ == capacity && items == [] && fresh(queue_)
      ensures if ok then queue_ != null && queue_.Length == capacity else queue_ == null
    {
      AcceptsExactly(capacity);
      if !Accepts(capacity) {
        return false;
      }
      if !enough {
        return false;
      }
      queue_ := new Item[capacity](_ => 0);
      capacity_ := capacity;
      capacity_mask_ := capacity - 1;
      return true;
    }

    /** One slot always stays free. */
    method Push(item: Item) returns (ok: bool)
      requires Ready()
      modifies this`tail_, this`items, queue_
      ensures Ready() && ok == (|old(items)| < capacity_ - 1)
      ensures items == if ok then old(items) + [item] else old(items)
    {
      MaskWraps(tail_ + 1, capacity_);
      var next_tail := And(tail_ + 1, capacity_mask_);
      if next_tail != head_ {
        queue_[tail_] := item;
        tail_ := next_tail;
        items := items + [item];
        return true;
      }
      return false;
    }

    method Pop() returns (ok: bool, item: Item)
      requires Ready()
      modifies this`head_, this`items
      ensures Ready() && ok == (old(items) != [])
      ensures if ok then item == old(items)[0] && items == old(items)[1..] else items == old(items)
    {
      if head_ == tail_ {
        return false, 0;
      }
      item := queue_[head_];
      MaskWraps(head_ + 1, capacity_);
      head_ := And(head_ + 1, capacity_mask_);
      items := items[1..];
      ok := true;
    }

    method MayEmpty() returns (r: bool)
      requires Ready()
      ensures r <==> items == []
    {
      r := head_ == tail_;
    }

    method MayFull() returns (r: bool)
      requires Ready()
      ensures r <==> |items| == capacity_ - 1
    {
      MaskWraps(tail_ + 1, capacity_);
      r := And(tail_ + 1, capacity_mask_) == head_;
    }
  }
}
