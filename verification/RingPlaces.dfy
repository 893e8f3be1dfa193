// Places on a ring buffer.

module RingPlaces {

  /** The slot that is `k` places behind `front` on a ring of `capacity` slots. */
  function Place(front: nat, k: nat, capacity: nat): nat {
    if front + k < capacity then front + k else front + k - capacity
  }

  lemma NextPlace(i: nat, size: nat)
    requires i < size
    ensures (i + 1) % size == Place(i, 1, size)
  {
  }

  /** The places seen from the next slot. */
  lemma PlacesShift(front: nat, next: nat, capacity: nat)
    requires front < capacity && next == if front == capacity - 1 then 0 else front + 1
    ensures Place(front, 0, capacity) == Place(front, capacity, capacity) == front
    ensures forall k :: 0 < k < capacity ==> Place(front, k, capacity) != front
    ensures forall k :: 0 <= k < capacity ==>
      Place(next, k, capacity) == Place(front, if k + 1 == capacity then 0 else k + 1, capacity)
  {
  }
}
