// The wait queue of MidtermProject/common.c: a ring of pointers that is meant to grow when
// it is full.

module WaitQueue {
  import opened RingPlaces
  import opened Runs

  /** What a slot of the ring holds.  Memory that `malloc` returned and nobody wrote, and a slot
      that `dequeue` has cleared, are both Unset: neither is a client. */
  datatype Slot<T> = Unset | Item(value: T)

  /** The queue as its callers see it.  `live` are the clients that can still be taken out;
      `phantoms` counts what `size` counts beyond them. */
  datatype Queue<T> = Queue(live: seq<T>, phantoms: nat, capacity: nat) {
    function Size(): nat { |live| + phantoms }

    predicate WellFormed() {
      && Size() <= capacity
      && (capacity == 0 ==> live == [] && phantoms == 0)
    }

    /** The ring is full of clients, so its front and its rear coincide. */
    predicate FullOfClients() {
      phantoms == 0 && |live| == capacity && capacity > 0
    }
  }

  function Empty<T>(): Queue<T> { Queue([], 0, 0) }

  function Grown(capacity: nat): nat {
    if capacity == 0 then 1 else 2 * capacity
  }

  /** `resize_queue` copies from front to rear, and so nothing at all when they coincide. */
  function Resized<T>(q: Queue<T>): Queue<T> {
    if q.FullOfClients() then Queue([], q.Size(), Grown(q.capacity)) else q.(capacity := Grown(q.capacity))
  }

  function Enqueued<T>(q: Queue<T>, x: T): Queue<T> {
    var r := if q.Size() == q.capacity then Resized(q) else q;
    r.(live := r.live + [x])
  }

  /** The slot that `dequeue` returns, or None for its NULL on an empty queue. */
  function Front<T>(q: Queue<T>): Option<Slot<T>> {
    if q.Size() == 0 then None else Some(if q.live == [] then Unset else Item(q.live[0]))
  }

  function Dequeued<T>(q: Queue<T>): Queue<T>
    requires q.live != []
  {
    q.(live := q.live[1..])
  }

  lemma QueueStaysWellFormed<T>(q: Queue<T>, x: T)
    requires q.WellFormed()
    ensures Enqueued(q, x).WellFormed() && Enqueued(q, x).Size() == q.Size() + 1
    ensures q.live != [] ==> Dequeued(q).WellFormed() && Dequeued(q).Size() == q.Size() - 1
  {
  }

  /** `enqueue` appends exactly when the ring is not full of clients; when it is, it forgets all
      of them and `size` keeps counting them. */
  lemma EnqueueIsFifoIff<T>(q: Queue<T>, x: T)
    requires q.WellFormed()
    ensures Enqueued(q, x).live == q.live + [x] <==> !q.FullOfClients()
    ensures q.FullOfClients() ==> Enqueued(q, x).live == [x] && Enqueued(q, x).phantoms == |q.live|
    ensures Enqueued(q, x).phantoms >= q.phantoms
  {
    if q.FullOfClients() {
      assert |q.live + [x]| > 1;
    }
  }

  function EnqueuedAll<T>(q: Queue<T>, xs: seq<T>): Queue<T>
    decreases |xs|
  {
    if xs == [] then q else EnqueuedAll(Enqueued(q, xs[0]), xs[1..])
  }

  lemma {:induction false} PhantomsStay<T>(q: Queue<T>, xs: seq<T>)
    ensures EnqueuedAll(q, xs).phantoms >= q.phantoms
    decreases |xs|
  {
    if xs != [] {
      PhantomsStay(Enqueued(q, xs[0]), xs[1..]);
    }
  }

  /** From an empty queue as `main` sets it up, clients are kept exactly as long as no two of
      them wait at the same time: the second one makes the ring grow while it is full. */
  lemma SecondWaiterIsFatal<T>(xs: seq<T>)
    ensures EnqueuedAll(Empty(), xs).live == xs <==> |xs| <= 1
    ensures |xs| > 1 ==> EnqueuedAll(Empty(), xs).phantoms > 0
  {
    if |xs| == 1 {
      assert EnqueuedAll(Empty(), xs) == Queue([xs[0]], 0, 1);
    } else if |xs| > 1 {
      var one := Enqueued(Empty(), xs[0]);
      assert one == Queue([xs[0]], 0, 1);
      var two := Enqueued(one, xs[1]);
      assert xs[1..][0] == xs[1] && two.phantoms == 1;
      PhantomsStay(two, xs[1..][1..]);
      EnqueuedLength(Empty(), xs);
    }
  }

  ghost predicate PowerOfTwo(n: nat)
    decreases n
  {
    n == 1 || (n > 1 && n % 2 == 0 && PowerOfTwo(n / 2))
  }

  /** The capacity of a ring that is never emptied: 1 for the first client, and twice what it was
      each time that it is full. */
  lemma {:induction false} RingDoubles<T>(q: Queue<T>, xs: seq<T>)
    requires q.WellFormed() && (q.Size() == q.capacity == 0 || (PowerOfTwo(q.capacity) && q.capacity < 2 * q.Size()))
    ensures var r := EnqueuedAll(q, xs);
            r.Size() == r.capacity == 0 || (PowerOfTwo(r.capacity) && r.Size() <= r.capacity < 2 * r.Size())
    decreases |xs|
  {
    if xs != [] {
      QueueStaysWellFormed(q, xs[0]);
      var r := Enqueued(q, xs[0]);
      assert q.Size() == q.capacity > 0 ==> r.capacity == 2 * q.capacity && r.capacity / 2 == q.capacity;
      RingDoubles(r, xs[1..]);
    }
  }

  lemma {:induction false} EnqueuedLength<T>(q: Queue<T>, xs: seq<T>)
    requires q.WellFormed()
    ensures EnqueuedAll(q, xs).Size() == q.Size() + |xs|
    decreases |xs|
  {
    if xs != [] {
      QueueStaysWellFormed(q, xs[0]);
      EnqueuedLength(Enqueued(q, xs[0]), xs[1..]);
    }
  }

  /** `struct queue`. */
  class Ring<T(0)> {
    var front: nat
    var rear: nat
    var capacity: nat
    var size: nat
    var elements: array<Slot<T>>
    ghost var live: seq<T>

    ghost predicate Valid()
      reads this, elements
    {
      && elements.Length == capacity
      && |live| <= size <= capacity
      && (if capacity == 0 then front == rear == 0 else front < capacity && rear == Place(front, |live|, capacity))
      && (forall k :: 0 <= k < |live| ==> elements[Place(front, k, capacity)] == Item(live[k]))
      && (forall k :: |live| <= k < capacity ==> elements[Place(front, k, capacity)] == Unset)
    }

    ghost function Contents(): Queue<T>
      reads this, elements
      requires Valid()
    {
      Queue(live, size - |live|, capacity)
    }

    /** The queue as `main` initializes it (server.c, lines 75-79). */
    constructor ()
      ensures Valid() && Contents() == Empty() && fresh(elements)
    {
      front, rear, capacity, size := 0, 0, 0, 0;
      elements := new Slot<T>[0];
      live := [];
    }

    method Enqueue(item: T)
      requires Valid()
      modifies this, elements
      ensures Valid() && Contents() == Enqueued(old(Contents()), item)
      ensures elements == old(elements) || fresh(elements)
    {
      if size == capacity {
        ResizeQueue();
      }
      Store(item);
    }

    /** Lines 14-21. */
    method Store(item: T)
      requires Valid() && size < capacity
      modifies this`rear, this`size, this`live, elements
      ensures Valid() && Contents() == Queue(old(live) + [item], old(Contents()).phantoms, capacity)
    {
      elements[rear] := Item(item);
      rear := if rear == capacity - 1 then 0 else rear + 1;
      size := size + 1;
      live := live + [item];
    }

    /** Taking out a phantom moves `front` past `rear`: the ring is no queue then, and only its
        fields are promised. */
    method Dequeue() returns (slot: Option<Slot<T>>)
      requires Valid()
      modifies this, elements
      ensures elements == old(elements) && slot == Front(old(Contents()))
      ensures slot == None ==> Valid() && Contents() == old(Contents())
      ensures slot.Some? && slot.value.Item? ==> Valid() && Contents() == Dequeued(old(Contents()))
      ensures slot.Some? ==>
        && size == old(size) - 1 && rear == old(rear) && capacity == old(capacity)
        && front == (if old(front) == capacity - 1 then 0 else old(front) + 1)
        && elements[..] == old(elements[..])[old(front) := Unset]
    {
      if size == 0 {
        return None;
      }
      slot := Some(elements[front]);
      elements[front] := Unset;
      front := if front == capacity - 1 then 0 else front + 1;
      size := size - 1;
      if live != [] {
        hide Place;
        live := live[1..];
        PlacesShift(old(front), front, capacity);
      }
    }

    /** Doubles the ring and lays out what lies between front and rear from slot 0 on. */
    method ResizeQueue()
      requires Valid()
      modifies this
      ensures Valid() && fresh(elements)
      ensures Contents() == Resized(old(Contents()))
      ensures front == 0 && rear < capacity
    {
      var newCapa := if capacity == 0 then 1 else 2 * capacity;
      var newElements := new Slot<T>[newCapa](_ => Unset);
      var i := CopyOut(newElements);
      elements := newElements;
      capacity := newCapa;
      front := 0;
      rear := i;
      live := live[..i];
    }

    /** Lines 55-58: the slots from front to rear, of which there are none when the two meet. */
    method CopyOut(newElements: array<Slot<T>>) returns (i: nat)
      requires Valid() && newElements != elements && newElements.Length >= |live|
      modifies this`front, newElements
      ensures i == if old(front) == rear then 0 else |live|
      ensures forall k :: 0 <= k < newElements.Length ==>
        newElements[k] == if k < i then Item(live[k]) else old(newElements[k])
    {
      i := 0;
      ghost var toCopy := if front == rear then 0 else |live|;
      while front != rear
        invariant i <= toCopy && front == Place(old(front), i, capacity)
        invariant front == rear <==> i == toCopy
        invariant forall k :: 0 <= k < newElements.Length ==>
          newElements[k] == if k < i then Item(live[k]) else old(newElements[k])
        decreases toCopy - i
      {
        newElements[i] := elements[front];
        front := if front == capacity - 1 then 0 else front + 1;
        i := i + 1;
      }
    }
  }
}
