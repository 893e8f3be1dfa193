// The pide shop of FinalProject/PideShop.c: any number of chefs and deliverers work on one
// batch of orders at a time.  A step is one critical section, or one local action between two.

module PideShop {
  import opened Counting
  import opened Runs

  const MAX_OVEN_CAPACITY := 6
  const MAX_DELIVERY_BAG_CAPACITY := 3
  const MAX_OVEN_SLOTS := 2
  const MAX_OVEN_PEELS := 3

  /** The fields of an `Order` that the threads act on. */
  datatype Order = Order(id: int, status: int, isPlaced: int, send: int)

  /** What `memset` leaves of a record. */
  const CLEARED := Order(0, 0, 0, 0)

  /** Where a chef stands, and the index of the order it holds.  The comments give the line
      that comes next. */
  datatype Chef =
    | Looking             // 130
    | AwaitOrder          // 132, asleep on orderAvailable
    | WantsSlot(i: nat)   // 153
    | AwaitSlot(i: nat)   // 155, asleep on ovenSlotAvailable
    | WantsPeel(i: nat)   // 161
    | AwaitPeel(i: nat)   // 163, asleep on ovenPeelAvailable
    | WantsOven(i: nat)   // 169
    | AwaitOven(i: nat)   // 171, asleep on ovenAvailable
    | Cooking(i: nat)     // 184
    | FreesSlot(i: nat)   // 190
    | FreesPeel(i: nat)   // 196
    | Finishes(i: nat)    // 202

  datatype Deliverer =
    | Waiting                   // 218
    | Asleep                    // 220, asleep on orderAvailable
    | Carrying(bag: seq<Order>) // 255

  /** ovenSlots, ovenPeels and ovenCapacity. */
  datatype Oven = Oven(slots: int, peels: int, capacity: int)

  /** ordersArray (and max_order, its length), and the counters that ordersMutex guards.  The
      last five are history: what allOrders was when the batch arrived, how many batches there
      were and how many of them without an order, and which chef and which deliverer claimed the
      order at an index. */
  datatype Book = Book(
    orders: seq<Order>, numOrders: int, allOrders: nat, deliveredOrders: int,
    totalDelivered: seq<nat>, notifications: nat,
    first: nat, batches: nat, emptyBatches: nat, cook: map<nat, nat>, carrier: map<nat, nat>)

  datatype State = State(oven: Oven, book: Book, chefs: seq<Chef>, deliverers: seq<Deliverer>)

  datatype Action =
    | ChefStep(c: nat, wake: nat)   // a signal that chef `c` sends wakes sleeper `wake`
    | DelivererStep(d: nat)
    | Batch(before: seq<Order>, incoming: seq<Order>)   // a client sends `incoming`
    | SpuriousChef(c: nat)
    | SpuriousDeliverer(d: nat)

  function Init(chefs: nat, deliverers: nat): State {
    State(Oven(MAX_OVEN_SLOTS, MAX_OVEN_PEELS, 0),
          Book([], 0, 0, 0, seq(deliverers, _ => 0), 0, 0, 0, 0, map[], map[]),
          seq(chefs, _ => Looking), seq(deliverers, _ => Waiting))
  }

  // --------------------------------------------------------------------------- the chefs

  predicate SleepsOnOrder(k: Chef) { k.AwaitOrder? }
  predicate SleepsOnSlot(k: Chef) { k.AwaitSlot? }
  predicate SleepsOnPeel(k: Chef) { k.AwaitPeel? }
  predicate SleepsOnOven(k: Chef) { k.AwaitOven? }

  predicate ChefAsleep(k: Chef) {
    k.AwaitOrder? || k.AwaitSlot? || k.AwaitPeel? || k.AwaitOven?
  }

  /** Where a sleeper goes on: it takes the mutex and looks again. */
  function Woken(k: Chef): Chef {
    match k
    case AwaitOrder => Looking
    case AwaitSlot(i) => WantsSlot(i)
    case AwaitPeel(i) => WantsPeel(i)
    case AwaitOven(i) => WantsOven(i)
    case _ => k
  }

  /** The condition variable that the next step of a chef at `k` signals. */
  function Signals(k: Chef): Option<Chef -> bool> {
    match k
    case Cooking(_) => Some(SleepsOnOven)
    case FreesSlot(_) => Some(SleepsOnSlot)
    case FreesPeel(_) => Some(SleepsOnPeel)
    case Finishes(_) => Some(SleepsOnOrder)
    case _ => None
  }

  function WakeOne(chefs: seq<Chef>, wake: nat, asleep: Chef -> bool): seq<Chef> {
    if wake < |chefs| && asleep(chefs[wake]) then chefs[wake := Woken(chefs[wake])] else chefs
  }

  /** Line 136: an order of the batch that nobody has claimed. */
  predicate Unclaimed(o: Order) {
    o.status == 0 && o.isPlaced == 0 && o.send == 1
  }

  /** The loop of lines 135-142, from index `i` on. */
  function FirstUnclaimed(orders: seq<Order>, i: nat): Option<nat>
    requires i <= |orders|
    decreases |orders| - i
  {
    if i == |orders| then None
    else if Unclaimed(orders[i]) then Some(i)
    else FirstUnclaimed(orders, i + 1)
  }

  function WithStatus(b: Book, i: nat, status: int): Book {
    if i < |b.orders| then b.(orders := b.orders[i := b.orders[i].(status := status)]) else b
  }

  /** Lines 130-143. */
  function Look(s: State, c: nat): State
    requires c < |s.chefs|
  {
    if s.book.numOrders == 0 then s.(chefs := s.chefs[c := AwaitOrder])
    else
      match FirstUnclaimed(s.book.orders, 0)
      case None => s
      case Some(i) =>
        if i < |s.book.orders| then
          s.(chefs := s.chefs[c := WantsSlot(i)],
             book := s.book.(orders := s.book.orders[i := s.book.orders[i].(status := 1, isPlaced := 1)],
                             cook := s.book.cook[i := c]))
        else s
  }

  /** What a chef at `k` does to the oven. */
  function OvenAfter(o: Oven, k: Chef): Oven {
    match k
    case WantsSlot(_) => if o.slots <= 0 then o else o.(slots := o.slots - 1)
    case WantsPeel(_) => if o.peels <= 0 then o else o.(peels := o.peels - 1)
    case WantsOven(_) => if o.capacity >= MAX_OVEN_CAPACITY then o else o.(capacity := o.capacity + 1)
    case Cooking(_) => o.(capacity := o.capacity - 1)
    case FreesSlot(_) => o.(slots := o.slots + 1)
    case FreesPeel(_) => o.(peels := o.peels + 1)
    case _ => o
  }

  /** Where a chef that holds an order goes from `k`. */
  function ChefAfter(o: Oven, k: Chef): Chef {
    match k
    case WantsSlot(i) => if o.slots <= 0 then AwaitSlot(i) else WantsPeel(i)
    case WantsPeel(i) => if o.peels <= 0 then AwaitPeel(i) else WantsOven(i)
    case WantsOven(i) => if o.capacity >= MAX_OVEN_CAPACITY then AwaitOven(i) else Cooking(i)
    case Cooking(i) => FreesSlot(i)
    case FreesSlot(i) => FreesPeel(i)
    case FreesPeel(i) => Finishes(i)
    case Finishes(_) => Looking
    case _ => k
  }

  function BookAfter(o: Oven, b: Book, k: Chef): Book {
    match k
    case WantsOven(i) => if o.capacity >= MAX_OVEN_CAPACITY then b else WithStatus(b, i, 2)
    case Finishes(i) => WithStatus(b, i, 3)
    case _ => b
  }

  /** A step of a chef that holds an order; what it signals wakes one sleeper, if there is any.
      The deliverers sleep on the same condition variable as the chefs that look for orders, and
      are numbered after them. */
  function Cook(s: State, c: nat, wake: nat): State
    requires c < |s.chefs|
  {
    var k := s.chefs[c];
    var moved := s.chefs[c := ChefAfter(s.oven, k)];
    State(OvenAfter(s.oven, k), BookAfter(s.oven, s.book, k),
          match Signals(k) case None => moved case Some(asleep) => WakeOne(moved, wake, asleep),
          if k.Finishes? && |s.chefs| <= wake < |s.chefs| + |s.deliverers| && s.deliverers[wake - |s.chefs|].Asleep?
          then s.deliverers[wake - |s.chefs| := Waiting] else s.deliverers)
  }

  /** `wake` is a sleeper on the condition variable, unless there is none. */
  predicate Wakes(s: State, k: Chef, wake: nat) {
    match Signals(k)
    case None => true
    case Some(asleep) =>
      || (wake < |s.chefs| && asleep(s.chefs[wake]))
      || (k.Finishes? && |s.chefs| <= wake < |s.chefs| + |s.deliverers| && s.deliverers[wake - |s.chefs|].Asleep?)
      || (Count(s.chefs, asleep) == 0 && (k.Finishes? ==> Count(s.deliverers, DelivererAsleep) == 0))
  }

  // ---------------------------------------------------------------------- the deliverers

  predicate DelivererAsleep(k: Deliverer) { k.Asleep? }

  /** The loop of lines 223-229: the first orders from `i` on that are ready, at most `room`. */
  function Ready(orders: seq<Order>, i: nat, room: nat): seq<nat>
    requires i <= |orders|
    decreases |orders| - i
  {
    if i == |orders| || room == 0 then []
    else if orders[i].status == 3 then [i] + Ready(orders, i + 1, room - 1)
    else Ready(orders, i + 1, room)
  }

  function Marked(orders: seq<Order>, taken: seq<nat>): seq<Order> {
    seq(|orders|, i requires 0 <= i < |orders| => if i in taken then orders[i].(status := 4) else orders[i])
  }

  function Bag(orders: seq<Order>, taken: seq<nat>): seq<Order>
    requires forall k :: 0 <= k < |taken| ==> taken[k] < |orders|
  {
    seq(|taken|, k requires 0 <= k < |taken| => orders[taken[k]].(status := 4))
  }

  lemma {:induction false} ReadyIs(orders: seq<Order>, i: nat, room: nat)
    requires i <= |orders|
    ensures var r := Ready(orders, i, room);
            && |r| <= room
            && (forall k :: 0 <= k < |r| ==> i <= r[k] < |orders| && orders[r[k]].status == 3)
            && (forall k, l :: 0 <= k < l < |r| ==> r[k] < r[l])
            && (forall j :: i <= j < |orders| && orders[j].status == 3 && j !in r ==> PassedOver(r, room, j))
    decreases |orders| - i
  {
    if i < |orders| && room > 0 {
      var room' := if orders[i].status == 3 then room - 1 else room;
      var rest := Ready(orders, i + 1, room');
      ReadyIs(orders, i + 1, room');
      forall j | i <= j < |orders| && orders[j].status == 3 && j !in Ready(orders, i, room)
        ensures PassedOver(Ready(orders, i, room), room, j)
      {
        assert j != i && j !in rest;
        assert PassedOver(rest, room', j);
      }
    }
  }

  /** An order is left behind only when the bag is full, with orders before it. */
  predicate PassedOver(taken: seq<nat>, room: nat, j: nat) {
    |taken| == room && forall k :: 0 <= k < |taken| ==> taken[k] < j
  }

  /** Lines 218-230. */
  function Collect(s: State, d: nat): State
    requires d < |s.deliverers|
  {
    if s.book.numOrders == 0 then s.(deliverers := s.deliverers[d := Asleep])
    else
      var b := s.book;
      var taken := Ready(b.orders, 0, MAX_DELIVERY_BAG_CAPACITY);
      ReadyIs(b.orders, 0, MAX_DELIVERY_BAG_CAPACITY);
      if taken == [] then s
      else
        s.(deliverers := s.deliverers[d := Carrying(Bag(b.orders, taken))],
           book := b.(orders := Marked(b.orders, taken),
                      carrier := map i | i in b.carrier.Keys + (set j | j in taken) ::
                                   if i in taken then d else b.carrier[i]))
  }

  /** The two loops of lines 258-262 and 273-277: every record with this id is first marked and
      then zeroed. */
  function ClearById(orders: seq<Order>, id: int): seq<Order> {
    seq(|orders|, i requires 0 <= i < |orders| => if orders[i].id == id then CLEARED else orders[i])
  }

  /** One turn of the loop of lines 257-283, for the order `o` of deliverer `d`. */
  function DeliverOne(b: Book, d: nat, o: Order): Book {
    var delivered := b.deliveredOrders + 1;
    var last := delivered == |b.orders|;
    b.(orders := ClearById(b.orders, o.id),
       numOrders := b.numOrders - 1,
       totalDelivered := if d < |b.totalDelivered| then b.totalDelivered[d := b.totalDelivered[d] + 1]
                         else b.totalDelivered,
       deliveredOrders := if last then 0 else delivered,
       notifications := b.notifications + One(last))
  }

  function DeliverAll(b: Book, d: nat, bag: seq<Order>): Book
    decreases |bag|
  {
    if bag == [] then b else DeliverAll(DeliverOne(b, d, bag[0]), d, bag[1..])
  }

  function Delivers(s: State, d: nat): State
    requires d < |s.deliverers|
  {
    match s.deliverers[d]
    case Waiting => Collect(s, d)
    case Asleep => s
    case Carrying(bag) => s.(deliverers := s.deliverers[d := Waiting], book := DeliverAll(s.book, d, bag))
  }

  // -------------------------------------------------------------------------- the batches

  function WakeChefs(chefs: seq<Chef>): seq<Chef> {
    seq(|chefs|, c requires 0 <= c < |chefs| => if chefs[c].AwaitOrder? then Looking else chefs[c])
  }

  function WakeDeliverers(deliverers: seq<Deliverer>): seq<Deliverer> {
    seq(|deliverers|, d requires 0 <= d < |deliverers| => if deliverers[d].Asleep? then Waiting else deliverers[d])
  }

  /** Line 415: the orders that the server takes over. */
  predicate HasStatus0(o: Order) { o.status == 0 }

  /** An order as the client program makes it. */
  predicate IsNew(o: Order) { o.status == 0 && o.isPlaced == 0 }

  /** The loop of lines 414-421.  Where an order is not taken over, the array keeps what it held
      before, which is anything if it was just allocated. */
  function Stored(before: seq<Order>, incoming: seq<Order>, id: int): seq<Order>
    requires |before| == |incoming|
  {
    seq(|incoming|, i requires 0 <= i < |incoming| =>
      if HasStatus0(incoming[i]) then incoming[i].(send := 1, id := id + CountTo(incoming, i, HasStatus0))
      else before[i])
  }

  /** Lines 392-427, for a client that sends `incoming` when the array holds `before`. */
  function Arrive(s: State, before: seq<Order>, incoming: seq<Order>): State
    requires |before| == |incoming|
  {
    var b, n := s.book, Count(incoming, HasStatus0);
    State(s.oven,
          b.(orders := Stored(before, incoming, b.allOrders),
             numOrders := b.numOrders + n, allOrders := b.allOrders + n,
             first := b.allOrders, batches := b.batches + 1, emptyBatches := b.emptyBatches + One(incoming == []),
             cook := map[], carrier := map[]),
          WakeChefs(s.chefs), WakeDeliverers(s.deliverers))
  }

  /** Lines 392-400: an array of the right size is kept, another one is allocated. */
  predicate ArrayHolds(b: Book, before: seq<Order>, incoming: seq<Order>) {
    |before| == |incoming| && (|incoming| == |b.orders| ==> before == b.orders)
  }

  predicate Enabled(s: State, a: Action) {
    match a
    case ChefStep(c, wake) => c < |s.chefs| && !ChefAsleep(s.chefs[c]) && Wakes(s, s.chefs[c], wake)
    case DelivererStep(d) => d < |s.deliverers| && !s.deliverers[d].Asleep?
    case Batch(before, incoming) =>
      && s.book.numOrders == 0 && ArrayHolds(s.book, before, incoming)
      && forall i :: 0 <= i < |incoming| ==> IsNew(incoming[i])
    case SpuriousChef(c) => c < |s.chefs| && ChefAsleep(s.chefs[c])
    case SpuriousDeliverer(d) => d < |s.deliverers| && s.deliverers[d].Asleep?
  }

  function Do(s: State, a: Action): State
    requires Enabled(s, a)
  {
    match a
    case ChefStep(c, wake) => if s.chefs[c].Looking? then Look(s, c) else Cook(s, c, wake)
    case DelivererStep(d) => Delivers(s, d)
    case Batch(before, incoming) => Arrive(s, before, incoming)
    case SpuriousChef(c) => s.(chefs := s.chefs[c := Woken(s.chefs[c])])
    case SpuriousDeliverer(d) => s.(deliverers := s.deliverers[d := Waiting])
  }

  function Step(s: State, a: Action): Option<State> {
    if Enabled(s, a) then Some(Do(s, a)) else None
  }

  // ----------------------------------------------------------------------------- the oven

  predicate HasSlot(k: Chef) {
    k.WantsPeel? || k.AwaitPeel? || k.WantsOven? || k.AwaitOven? || k.Cooking? || k.FreesSlot?
  }

  predicate HasPeel(k: Chef) {
    k.WantsOven? || k.AwaitOven? || k.Cooking? || k.FreesSlot? || k.FreesPeel?
  }

  predicate InOven(k: Chef) { k.Cooking? }
  predicate TriesSlot(k: Chef) { k.WantsSlot? }
  predicate TriesPeel(k: Chef) { k.WantsPeel? }

  /** How many chefs there are of each kind. */
  datatype Kitchen = Kitchen(
    withSlot: nat, withPeel: nat, inOven: nat,
    triesSlot: nat, awaitsSlot: nat, triesPeel: nat, awaitsPeel: nat, awaitsOven: nat)

  function KitchenOf(chefs: seq<Chef>): Kitchen {
    Kitchen(Count(chefs, HasSlot), Count(chefs, HasPeel), Count(chefs, InOven),
            Count(chefs, TriesSlot), Count(chefs, SleepsOnSlot),
            Count(chefs, TriesPeel), Count(chefs, SleepsOnPeel), Count(chefs, SleepsOnOven))
  }

  /** Slots and peels are neither lost nor made; a chef sleeps on one only while fewer are free
      than there are chefs on their way to take one; and nobody ever sleeps on the oven. */
  predicate OvenOk(o: Oven, k: Kitchen) {
    && o.slots >= 0 && o.slots + k.withSlot == MAX_OVEN_SLOTS
    && o.peels >= 0 && o.peels + k.withPeel == MAX_OVEN_PEELS
    && o.capacity == k.inOven && k.inOven <= k.withSlot
    && (k.awaitsSlot > 0 ==> o.slots <= k.triesSlot)
    && (k.awaitsPeel > 0 ==> o.peels <= k.triesPeel)
    && k.awaitsOven == 0
  }

  predicate ChefMoved(x: Kitchen, y: Kitchen, k: Chef, l: Chef) {
    && Shift(x.withSlot, y.withSlot, HasSlot(k), HasSlot(l))
    && Shift(x.withPeel, y.withPeel, HasPeel(k), HasPeel(l))
    && Shift(x.inOven, y.inOven, InOven(k), InOven(l))
    && Shift(x.triesSlot, y.triesSlot, TriesSlot(k), TriesSlot(l))
    && Shift(x.awaitsSlot, y.awaitsSlot, SleepsOnSlot(k), SleepsOnSlot(l))
    && Shift(x.triesPeel, y.triesPeel, TriesPeel(k), TriesPeel(l))
    && Shift(x.awaitsPeel, y.awaitsPeel, SleepsOnPeel(k), SleepsOnPeel(l))
    && Shift(x.awaitsOven, y.awaitsOven, SleepsOnOven(k), SleepsOnOven(l))
  }

  lemma MoveChef(chefs: seq<Chef>, c: nat, l: Chef)
    requires c < |chefs|
    ensures ChefMoved(KitchenOf(chefs), KitchenOf(chefs[c := l]), chefs[c], l)
  {
    CountUpdate(chefs, c, l, HasSlot);
    CountUpdate(chefs, c, l, HasPeel);
    CountUpdate(chefs, c, l, InOven);
    CountUpdate(chefs, c, l, TriesSlot);
    CountUpdate(chefs, c, l, SleepsOnSlot);
    CountUpdate(chefs, c, l, TriesPeel);
    CountUpdate(chefs, c, l, SleepsOnPeel);
    CountUpdate(chefs, c, l, SleepsOnOven);
  }

  lemma {:induction false} InOvenHasSlotTo(chefs: seq<Chef>, n: nat)
    requires n <= |chefs|
    ensures CountTo(chefs, n, InOven) <= CountTo(chefs, n, HasSlot)
  {
    if n > 0 {
      InOvenHasSlotTo(chefs, n - 1);
    }
  }

  /** The oven's numbers after a chef's own move from `k`, before its signal takes effect. */
  predicate OvenAlmostOk(o: Oven, x: Kitchen, k: Chef) {
    && o.slots >= 0 && o.slots + x.withSlot == MAX_OVEN_SLOTS
    && o.peels >= 0 && o.peels + x.withPeel == MAX_OVEN_PEELS
    && o.capacity == x.inOven && x.inOven <= x.withSlot
    && (x.awaitsSlot > 0 ==> o.slots <= x.triesSlot + One(k.FreesSlot?))
    && (x.awaitsPeel > 0 ==> o.peels <= x.triesPeel + One(k.FreesPeel?))
    && x.awaitsOven == 0
  }

  lemma CookMovesOven(o: Oven, x: Kitchen, y: Kitchen, k: Chef)
    requires OvenOk(o, x) && !ChefAsleep(k) && !k.Looking?
    requires ChefMoved(x, y, k, ChefAfter(o, k)) && y.inOven <= y.withSlot
    ensures OvenAlmostOk(OvenAfter(o, k), y, k)
  {
    match k {
      case WantsSlot(_) =>
      case WantsPeel(_) =>
      case WantsOven(_) =>
      case Cooking(_) =>
      case FreesSlot(_) =>
      case FreesPeel(_) =>
      case Finishes(_) =>
    }
  }

  /** The signal makes up for the slot or peel that was freed. */
  lemma SignalSettlesOven(o: Oven, chefs: seq<Chef>, k: Chef, wake: nat)
    requires OvenAlmostOk(o, KitchenOf(chefs), k) && Signals(k).Some?
    requires k.Finishes? || (wake < |chefs| && Signals(k).value(chefs[wake])) || Count(chefs, Signals(k).value) == 0
    ensures OvenOk(o, KitchenOf(WakeOne(chefs, wake, Signals(k).value)))
  {
    InOvenHasSlotTo(WakeOne(chefs, wake, Signals(k).value), |chefs|);
    if wake < |chefs| {
      MoveChef(chefs, wake, Woken(chefs[wake]));
    }
    match k {
      case Cooking(_) =>
      case FreesSlot(_) =>
      case FreesPeel(_) =>
      case Finishes(_) =>
    }
  }

  predicate OvenInv(s: State) {
    OvenOk(s.oven, KitchenOf(s.chefs))
  }

  lemma CookKeepsOven(s: State, c: nat, wake: nat)
    requires OvenInv(s) && Enabled(s, ChefStep(c, wake)) && !s.chefs[c].Looking?
    ensures OvenInv(Cook(s, c, wake))
  {
    var k, l := s.chefs[c], ChefAfter(s.oven, s.chefs[c]);
    var moved := s.chefs[c := l];
    MoveChef(s.chefs, c, l);
    InOvenHasSlotTo(moved, |moved|);
    CookMovesOven(s.oven, KitchenOf(s.chefs), KitchenOf(moved), k);
    if Signals(k).Some? {
      StillSleeps(s, c, l, wake);
      SignalSettlesOven(OvenAfter(s.oven, k), moved, k, wake);
    }
  }

  /** The chef that sends a signal is not one of those that it may wake. */
  lemma StillSleeps(s: State, c: nat, l: Chef, wake: nat)
    requires c < |s.chefs| && !ChefAsleep(s.chefs[c]) && !ChefAsleep(l)
    requires Signals(s.chefs[c]).Some? && Wakes(s, s.chefs[c], wake)
    ensures var k, moved := s.chefs[c], s.chefs[c := l];
            k.Finishes? || (wake < |moved| && Signals(k).value(moved[wake])) || Count(moved, Signals(k).value) == 0
  {
    var k := s.chefs[c];
    CountUpdate(s.chefs, c, l, Signals(k).value);
  }

  lemma {:induction false} WakeChefsTo(chefs: seq<Chef>, n: nat, p: Chef -> bool)
    requires n <= |chefs| && !p(AwaitOrder) && !p(Looking)
    ensures CountTo(WakeChefs(chefs), n, p) == CountTo(chefs, n, p)
  {
    if n > 0 {
      WakeChefsTo(chefs, n - 1, p);
    }
  }

  lemma BatchKeepsOven(chefs: seq<Chef>)
    ensures KitchenOf(WakeChefs(chefs)) == KitchenOf(chefs)
  {
    WakeChefsTo(chefs, |chefs|, HasSlot);
    WakeChefsTo(chefs, |chefs|, HasPeel);
    WakeChefsTo(chefs, |chefs|, InOven);
    WakeChefsTo(chefs, |chefs|, TriesSlot);
    WakeChefsTo(chefs, |chefs|, SleepsOnSlot);
    WakeChefsTo(chefs, |chefs|, TriesPeel);
    WakeChefsTo(chefs, |chefs|, SleepsOnPeel);
    WakeChefsTo(chefs, |chefs|, SleepsOnOven);
  }

  /** A chef that is woken, or that looks for an order, takes and frees nothing. */
  lemma MoveKeepsOven(o: Oven, chefs: seq<Chef>, c: nat, l: Chef)
    requires OvenOk(o, KitchenOf(chefs)) && c < |chefs|
    requires l == Woken(chefs[c]) || (chefs[c].Looking? && (l.Looking? || l.AwaitOrder? || l.WantsSlot?))
    ensures OvenOk(o, KitchenOf(chefs[c := l]))
  {
    MoveChef(chefs, c, l);
    InOvenHasSlotTo(chefs[c := l], |chefs|);
    match chefs[c] {
      case Looking =>
      case AwaitOrder =>
      case AwaitSlot(_) =>
      case AwaitPeel(_) =>
      case AwaitOven(_) =>
      case _ =>
    }
  }

  lemma StepKeepsOven(s: State, a: Action)
    requires OvenInv(s) && Enabled(s, a)
    ensures OvenInv(Do(s, a))
  {
    match a
    case ChefStep(c, wake) =>
      if s.chefs[c].Looking? {
        MoveKeepsOven(s.oven, s.chefs, c, Look(s, c).chefs[c]);
        assert Look(s, c).chefs == s.chefs[c := Look(s, c).chefs[c]];
      } else {
        CookKeepsOven(s, c, wake);
      }
    case DelivererStep(d) =>
    case Batch(_, _) => BatchKeepsOven(s.chefs);
    case SpuriousChef(c) => MoveKeepsOven(s.oven, s.chefs, c, Woken(s.chefs[c]));
    case SpuriousDeliverer(d) =>
  }

  // -------------------------------------------------------------------------- the orders

  predicate IsLive(o: Order) { o.send == 1 }

  /** The order that a chef holds. */
  function Held(k: Chef): Option<nat> {
    match k
    case Looking => None
    case AwaitOrder => None
    case WantsSlot(i) => Some(i)
    case AwaitSlot(i) => Some(i)
    case WantsPeel(i) => Some(i)
    case AwaitPeel(i) => Some(i)
    case WantsOven(i) => Some(i)
    case AwaitOven(i) => Some(i)
    case Cooking(i) => Some(i)
    case FreesSlot(i) => Some(i)
    case FreesPeel(i) => Some(i)
    case Finishes(i) => Some(i)
  }

  /** The status of the order that a chef at `k` holds. */
  function StatusAt(k: Chef): nat {
    if k.Cooking? || k.FreesSlot? || k.FreesPeel? || k.Finishes? then 2 else 1
  }

  function BagOf(k: Deliverer): seq<Order> {
    if k.Carrying? then k.bag else []
  }

  ghost predicate IsAt(m: map<nat, nat>, i: nat, p: nat) {
    i in m && m[i] == p
  }

  ghost predicate InBag(bag: seq<Order>, id: int) {
    exists k :: 0 <= k < |bag| && bag[k].id == id
  }

  /** The record at index `i` is the order with id `first + i`, or zeroed. */
  predicate RecordOk(o: Order, id: int) {
    o == CLEARED || (o.send == 1 && o.id == id && 0 <= o.status <= 4 && o.isPlaced == One(o.status > 0))
  }

  ghost predicate RecordsInv(b: Book) {
    forall i :: 0 <= i < |b.orders| ==> RecordOk(b.orders[i], b.first + i)
  }

  predicate WithChef(o: Order) { o.status == 1 || o.status == 2 }

  /** A chef that holds an order is the one that claimed it, and the order's status says how far
      it has come. */
  ghost predicate ChefOk(b: Book, k: Chef, c: nat) {
    Held(k).Some? ==>
      var i := Held(k).value;
      i < |b.orders| && b.orders[i].send == 1 && b.orders[i].status == StatusAt(k) && IsAt(b.cook, i, c)
  }

  ghost predicate HasChef(b: Book, chefs: seq<Chef>, i: nat)
    requires i < |b.orders|
  {
    WithChef(b.orders[i]) ==> i in b.cook && b.cook[i] < |chefs| && Held(chefs[b.cook[i]]) == Some(i)
  }

  ghost predicate ChefsInv(b: Book, chefs: seq<Chef>) {
    && (forall c :: 0 <= c < |chefs| ==> ChefOk(b, chefs[c], c))
    && (forall i :: 0 <= i < |b.orders| ==> HasChef(b, chefs, i))
  }

  /** The order with this id is at the index that the id gives, and deliverer `d` carries it. */
  ghost predicate CarriedBy(b: Book, id: int, d: nat) {
    var i := id - b.first;
    0 <= i < |b.orders| && b.orders[i].send == 1 && b.orders[i].status == 4 && IsAt(b.carrier, i, d)
  }

  ghost predicate DistinctIds(bag: seq<Order>) {
    forall k, l :: 0 <= k < l < |bag| ==> bag[k].id != bag[l].id
  }

  /** What is in a bag is carried by its deliverer, and is in it once. */
  ghost predicate BagOk(b: Book, bag: seq<Order>, d: nat) {
    && |bag| <= MAX_DELIVERY_BAG_CAPACITY && DistinctIds(bag)
    && forall k :: 0 <= k < |bag| ==> CarriedBy(b, bag[k].id, d)
  }

  ghost predicate HasDeliverer(b: Book, deliverers: seq<Deliverer>, i: nat)
    requires i < |b.orders|
  {
    b.orders[i].status == 4 ==>
      && i in b.carrier && b.carrier[i] < |deliverers|
      && InBag(BagOf(deliverers[b.carrier[i]]), b.first + i)
  }

  ghost predicate DeliverersInv(b: Book, deliverers: seq<Deliverer>) {
    && (forall d :: 0 <= d < |deliverers| ==> BagOk(b, BagOf(deliverers[d]), d))
    && (forall i :: 0 <= i < |b.orders| ==> HasDeliverer(b, deliverers, i))
  }

  function Itself(x: nat): nat { x }

  /** The counters count the records, and the notification was sent once for every finished
      batch that had orders. */
  predicate CountersInv(b: Book, deliverers: nat) {
    && b.numOrders == Count(b.orders, IsLive)
    && b.deliveredOrders == (if b.numOrders > 0 then |b.orders| - b.numOrders else 0)
    && b.allOrders == b.first + |b.orders|
    && |b.totalDelivered| == deliverers
    && Sum(b.totalDelivered, Itself) == b.allOrders - b.numOrders
    && b.notifications + b.emptyBatches + One(b.numOrders > 0) == b.batches
  }

  /** Nobody sleeps on orderAvailable while there is an order. */
  predicate SleepInv(s: State) {
    s.book.numOrders > 0 ==>
      && (forall c :: 0 <= c < |s.chefs| ==> !s.chefs[c].AwaitOrder?)
      && (forall d :: 0 <= d < |s.deliverers| ==> !s.deliverers[d].Asleep?)
  }

  // ........................................................................ orders and chefs

  /** What leaves alone the orders that chefs hold leaves alone what ties them to the chefs. */
  lemma SameHolders(b: Book, b': Book, chefs: seq<Chef>, chefs': seq<Chef>)
    requires ChefsInv(b, chefs) && |chefs| == |chefs'| && |b.orders| == |b'.orders| && b.cook == b'.cook
    requires forall c :: 0 <= c < |chefs| ==>
      Held(chefs'[c]) == Held(chefs[c]) && StatusAt(chefs'[c]) == StatusAt(chefs[c])
    requires forall i :: 0 <= i < |b.orders| ==>
      WithChef(b.orders[i]) == WithChef(b'.orders[i]) && (WithChef(b.orders[i]) ==> b.orders[i] == b'.orders[i])
    ensures ChefsInv(b', chefs')
  {
    forall i | 0 <= i < |b'.orders| ensures HasChef(b', chefs', i) {
      assert HasChef(b, chefs, i);
    }
    forall c | 0 <= c < |chefs'| ensures ChefOk(b', chefs'[c], c) {
      assert ChefOk(b, chefs[c], c);
    }
  }

  lemma ClaimKeepsChefs(b: Book, b': Book, chefs: seq<Chef>, c: nat, i: nat)
    requires ChefsInv(b, chefs) && c < |chefs| && chefs[c].Looking? && i < |b.orders|
    requires b.orders[i].status == 0 && b.orders[i].send == 1
    requires b'.orders == b.orders[i := b.orders[i].(status := 1, isPlaced := 1)] && b'.cook == b.cook[i := c]
    ensures ChefsInv(b', chefs[c := WantsSlot(i)])
  {
    var chefs' := chefs[c := WantsSlot(i)];
    forall j | 0 <= j < |b'.orders| ensures HasChef(b', chefs', j) {
      assert HasChef(b, chefs, j);
    }
    forall e | 0 <= e < |chefs'| ensures ChefOk(b', chefs'[e], e) {
      assert ChefOk(b, chefs[e], e);
    }
  }

  /** A chef goes on with the order that it holds, or puts it down as ready. */
  lemma MoveKeepsChefs(b: Book, b': Book, chefs: seq<Chef>, c: nat, i: nat, l: Chef, status: int)
    requires ChefsInv(b, chefs) && c < |chefs| && Held(chefs[c]) == Some(i)
    requires b' == WithStatus(b, i, status)
    requires (Held(l) == Some(i) && status == StatusAt(l)) || (l.Looking? && status == 3)
    ensures ChefsInv(b', chefs[c := l])
  {
    var chefs' := chefs[c := l];
    assert ChefOk(b, chefs[c], c);
    forall j | 0 <= j < |b'.orders| ensures HasChef(b', chefs', j) {
      assert HasChef(b, chefs, j);
    }
    forall e | 0 <= e < |chefs'| ensures ChefOk(b', chefs'[e], e) {
      assert ChefOk(b, chefs[e], e);
    }
  }

  lemma FirstUnclaimedIs(orders: seq<Order>, i: nat)
    requires i <= |orders|
    ensures var r := FirstUnclaimed(orders, i);
            match r
            case Some(j) =>
              i <= j < |orders| && Unclaimed(orders[j]) && forall k :: i <= k < j ==> !Unclaimed(orders[k])
            case None => forall k :: i <= k < |orders| ==> !Unclaimed(orders[k])
    decreases |orders| - i
  {
    if i < |orders| && !Unclaimed(orders[i]) {
      FirstUnclaimedIs(orders, i + 1);
    }
  }

  /** What a chef claims is the first order that was sent, is not prepared and is not placed; if
      there is none it only looks. */
  lemma ClaimsOnlyNew(s: State, c: nat)
    requires c < |s.chefs| && s.chefs[c].Looking? && s.book.numOrders != 0
    ensures var os, t := s.book.orders, Look(s, c);
            match t.chefs[c]
            case WantsSlot(i) =>
              && i < |os| && os[i].status == 0 && os[i].isPlaced == 0 && os[i].send == 1
              && t.book.orders == os[i := os[i].(status := 1, isPlaced := 1)]
              && forall j :: 0 <= j < i ==> os[j].status != 0 || os[j].isPlaced != 0 || os[j].send != 1
            case Looking =>
              t == s && forall j :: 0 <= j < |os| ==> os[j].status != 0 || os[j].isPlaced != 0 || os[j].send != 1
            case _ => false
  {
    FirstUnclaimedIs(s.book.orders, 0);
    forall j | 0 <= j < |s.book.orders|
      ensures Unclaimed(s.book.orders[j]) <==>
              s.book.orders[j].status == 0 && s.book.orders[j].isPlaced == 0 && s.book.orders[j].send == 1
    {
    }
  }

  lemma LookKeepsChefs(s: State, c: nat)
    requires ChefsInv(s.book, s.chefs) && c < |s.chefs| && s.chefs[c].Looking?
    ensures ChefsInv(Look(s, c).book, Look(s, c).chefs)
  {
    FirstUnclaimedIs(s.book.orders, 0);
    if s.book.numOrders == 0 {
      SameHolders(s.book, s.book, s.chefs, s.chefs[c := AwaitOrder]);
    } else if FirstUnclaimed(s.book.orders, 0).Some? {
      ClaimKeepsChefs(s.book, Look(s, c).book, s.chefs, c, FirstUnclaimed(s.book.orders, 0).value);
    }
  }

  lemma WakingKeepsChefs(b: Book, chefs: seq<Chef>, wake: nat, asleep: Chef -> bool)
    requires ChefsInv(b, chefs)
    ensures ChefsInv(b, WakeOne(chefs, wake, asleep))
  {
    SameHolders(b, b, chefs, WakeOne(chefs, wake, asleep));
  }

  /** The book after a step of a chef that holds order `i`. */
  lemma CookUpdates(o: Oven, b: Book, k: Chef, i: nat)
    requires !ChefAsleep(k) && Held(k) == Some(i) && i < |b.orders| && b.orders[i].status == StatusAt(k)
    ensures BookAfter(o, b, k) == WithStatus(b, i, if k.Finishes? then 3 else StatusAt(ChefAfter(o, k)))
  {
    assert b.orders[i := b.orders[i]] == b.orders;
  }

  lemma CookKeepsChefs(s: State, c: nat, wake: nat)
    requires ChefsInv(s.book, s.chefs) && c < |s.chefs| && !ChefAsleep(s.chefs[c]) && !s.chefs[c].Looking?
    ensures ChefsInv(Cook(s, c, wake).book, Cook(s, c, wake).chefs)
  {
    hide ChefsInv;
    var k, l := s.chefs[c], ChefAfter(s.oven, s.chefs[c]);
    HoldsItsOrder(s.book, s.chefs, c);
    CookUpdates(s.oven, s.book, k, Held(k).value);
    MoveKeepsChefs(s.book, BookAfter(s.oven, s.book, k), s.chefs, c, Held(k).value, l,
                   if k.Finishes? then 3 else StatusAt(l));
    if Signals(k).Some? {
      WakingKeepsChefs(BookAfter(s.oven, s.book, k), s.chefs[c := l], wake, Signals(k).value);
    }
  }

  lemma HoldsItsOrder(b: Book, chefs: seq<Chef>, c: nat)
    requires ChefsInv(b, chefs) && c < |chefs|
    ensures ChefOk(b, chefs[c], c)
  {
  }

  // ................................................................... orders and deliverers

  /** The orders that are carried are left alone. */
  ghost predicate SameCarried(b: Book, b': Book) {
    && |b.orders| == |b'.orders| && b.carrier == b'.carrier && b.first == b'.first
    && forall i :: 0 <= i < |b.orders| ==>
         (b.orders[i].status == 4 <==> b'.orders[i].status == 4)
         && (b.orders[i].status == 4 ==> b'.orders[i].send == b.orders[i].send)
  }

  lemma SameItem(b: Book, b': Book, id: int, d: nat)
    requires CarriedBy(b, id, d) && SameCarried(b, b')
    ensures CarriedBy(b', id, d)
  {
    var i: nat := id - b.first;
    assert b.orders[i].status == 4;
  }

  lemma SameBag(b: Book, b': Book, bag: seq<Order>, d: nat)
    requires BagOk(b, bag, d) && SameCarried(b, b')
    ensures BagOk(b', bag, d)
  {
    hide CarriedBy, SameCarried;
    forall k | 0 <= k < |bag| ensures CarriedBy(b', bag[k].id, d) {
      SameItem(b, b', bag[k].id, d);
    }
  }

  lemma SameDeliverer(b: Book, b': Book, ds: seq<Deliverer>, ds': seq<Deliverer>, i: nat)
    requires SameCarried(b, b') && |ds| == |ds'| && i < |b.orders| && HasDeliverer(b, ds, i)
    requires forall d :: 0 <= d < |ds| ==> BagOf(ds'[d]) == BagOf(ds[d])
    ensures HasDeliverer(b', ds', i)
  {
  }

  /** What leaves alone the orders that are carried leaves alone what ties them to the
      deliverers. */
  lemma SameBags(b: Book, b': Book, ds: seq<Deliverer>, ds': seq<Deliverer>)
    requires DeliverersInv(b, ds) && |ds| == |ds'| && SameCarried(b, b')
    requires forall d :: 0 <= d < |ds| ==> BagOf(ds'[d]) == BagOf(ds[d])
    ensures DeliverersInv(b', ds')
  {
    assert |b'.orders| == |b.orders|;
    hide HasDeliverer, BagOk, SameCarried;
    forall i | 0 <= i < |b'.orders| ensures HasDeliverer(b', ds', i) {
      SameDeliverer(b, b', ds, ds', i);
    }
    forall d | 0 <= d < |ds'| ensures BagOk(b', BagOf(ds'[d]), d) {
      SameBag(b, b', BagOf(ds[d]), d);
    }
  }

  /** What a deliverer takes: ready orders, at least one if there is any, at most a bag full. */
  ghost predicate Takes(orders: seq<Order>, taken: seq<nat>) {
    && |taken| <= MAX_DELIVERY_BAG_CAPACITY
    && (forall k :: 0 <= k < |taken| ==> taken[k] < |orders| && orders[taken[k]].status == 3)
    && (forall k, l :: 0 <= k < l < |taken| ==> taken[k] != taken[l])
  }

  lemma ReadyTakes(orders: seq<Order>)
    ensures Takes(orders, Ready(orders, 0, MAX_DELIVERY_BAG_CAPACITY))
    ensures Ready(orders, 0, MAX_DELIVERY_BAG_CAPACITY) == [] <==>
            forall j :: 0 <= j < |orders| ==> orders[j].status != 3
  {
    ReadyIs(orders, 0, MAX_DELIVERY_BAG_CAPACITY);
    var r := Ready(orders, 0, MAX_DELIVERY_BAG_CAPACITY);
    if r != [] {
      assert orders[r[0]].status == 3;
    }
  }

  ghost predicate Carries(b: Book, b': Book, taken: seq<nat>, d: nat) {
    && b'.orders == Marked(b.orders, taken) && b'.first == b.first
    && (forall i :: (i in b'.carrier <==> i in taken || i in b.carrier))
    && (forall i :: i in b'.carrier ==> b'.carrier[i] == if i in taken then d else b.carrier[i])
  }

  lemma RecordAt(b: Book, i: nat)
    requires RecordsInv(b) && i < |b.orders|
    ensures RecordOk(b.orders[i], b.first + i)
  {
  }

  /** The order at index `taken[k]`, which was ready, is carried now. */
  lemma NewItem(b: Book, b': Book, taken: seq<nat>, d: nat, k: nat)
    requires RecordsInv(b) && Takes(b.orders, taken) && Carries(b, b', taken, d) && k < |taken|
    ensures Bag(b.orders, taken)[k].id == b.first + taken[k]
    ensures CarriedBy(b', b.first + taken[k], d)
  {
    var i := taken[k];
    RecordAt(b, i);
    hide RecordsInv;
    assert i in taken && b.orders[i].status == 3;
    assert b'.orders[i] == b.orders[i].(status := 4);
  }

  lemma NewBagOk(b: Book, b': Book, taken: seq<nat>, d: nat)
    requires RecordsInv(b) && Takes(b.orders, taken) && Carries(b, b', taken, d)
    ensures BagOk(b', Bag(b.orders, taken), d)
  {
    hide RecordsInv, Carries, CarriedBy;
    var bag := Bag(b.orders, taken);
    forall k | 0 <= k < |bag| ensures bag[k].id == b.first + taken[k] && CarriedBy(b', bag[k].id, d) {
      NewItem(b, b', taken, d, k);
    }
  }

  /** An order that was carried before is not one of those that were ready, and stays as it is. */
  lemma OldItem(b: Book, b': Book, id: int, taken: seq<nat>, d: nat, e: nat)
    requires CarriedBy(b, id, e) && Takes(b.orders, taken) && Carries(b, b', taken, d)
    ensures CarriedBy(b', id, e)
  {
    var i: nat := id - b.first;
    assert b.orders[i].status == 4;
    forall k | 0 <= k < |taken| ensures taken[k] != i {
      assert b.orders[taken[k]].status == 3;
    }
    assert i in b.carrier && b'.orders[i] == b.orders[i];
  }

  lemma OldBagOk(b: Book, b': Book, bag: seq<Order>, taken: seq<nat>, d: nat, e: nat)
    requires BagOk(b, bag, e) && Takes(b.orders, taken) && Carries(b, b', taken, d)
    ensures BagOk(b', bag, e)
  {
    hide Takes, Carries, CarriedBy;
    forall k | 0 <= k < |bag| ensures CarriedBy(b', bag[k].id, e) {
      OldItem(b, b', bag[k].id, taken, d, e);
    }
  }

  lemma NewlyCarried(b: Book, b': Book, ds: seq<Deliverer>, d: nat, taken: seq<nat>, i: nat)
    requires RecordsInv(b) && Takes(b.orders, taken) && Carries(b, b', taken, d)
    requires d < |ds| && i < |b.orders| && HasDeliverer(b, ds, i) && BagOf(ds[d]) == []
    ensures HasDeliverer(b', ds[d := Carrying(Bag(b.orders, taken))], i)
  {
    if i in taken {
      var k :| 0 <= k < |taken| && taken[k] == i;
      assert RecordOk(b.orders[i], b.first + i);
      assert Bag(b.orders, taken)[k].id == b.first + i;
    }
  }

  lemma CollectKeepsBags(b: Book, b': Book, ds: seq<Deliverer>, d: nat, taken: seq<nat>)
    requires RecordsInv(b) && DeliverersInv(b, ds) && d < |ds| && BagOf(ds[d]) == []
    requires Takes(b.orders, taken) && Carries(b, b', taken, d)
    ensures DeliverersInv(b', ds[d := Carrying(Bag(b.orders, taken))])
  {
    hide RecordsInv, Carries, BagOk, HasDeliverer;
    var ds' := ds[d := Carrying(Bag(b.orders, taken))];
    assert |b'.orders| == |b.orders| by { CarriesSize(b, b', taken, d); }
    forall i | 0 <= i < |b'.orders| ensures HasDeliverer(b', ds', i) {
      NewlyCarried(b, b', ds, d, taken, i);
    }
    forall e | 0 <= e < |ds'| ensures BagOk(b', BagOf(ds'[e]), e) {
      if e == d {
        NewBagOk(b, b', taken, d);
      } else {
        OldBagOk(b, b', BagOf(ds[e]), taken, d, e);
      }
    }
  }

  lemma CarriesSize(b: Book, b': Book, taken: seq<nat>, d: nat)
    requires Carries(b, b', taken, d)
    ensures |b'.orders| == |b.orders|
  {
  }

  // ........................................................................... one delivery

  /** The net effect of the two loops that clear by id is on one record, although zeroed records
      carry id 0, and so does the very first order. */
  lemma ClearsOnlyIts(b: Book, i: nat)
    requires RecordsInv(b) && i < |b.orders| && b.orders[i].send == 1
    ensures ClearById(b.orders, b.first + i) == b.orders[i := CLEARED]
  {
    var cleared := ClearById(b.orders, b.first + i);
    forall j | 0 <= j < |b.orders| ensures cleared[j] == b.orders[i := CLEARED][j] {
      assert RecordOk(b.orders[j], b.first + j) && RecordOk(b.orders[i], b.first + i);
    }
  }

  /** The book after deliverer `d` has delivered the order at index `i`. */
  ghost predicate Delivered(b: Book, b': Book, d: nat, i: nat) {
    && i < |b.orders| && b'.orders == b.orders[i := CLEARED]
    && b'.first == b.first && b'.cook == b.cook && b'.carrier == b.carrier
    && b'.numOrders == b.numOrders - 1 && b'.allOrders == b.allOrders
    && b'.batches == b.batches && b'.emptyBatches == b.emptyBatches
    && d < |b.totalDelivered| && b'.totalDelivered == b.totalDelivered[d := b.totalDelivered[d] + 1]
    && b'.deliveredOrders == (if b.deliveredOrders + 1 == |b.orders| then 0 else b.deliveredOrders + 1)
    && b'.notifications == b.notifications + One(b.deliveredOrders + 1 == |b.orders|)
  }

  lemma DeliverOneDelivers(b: Book, d: nat, bag: seq<Order>)
    requires RecordsInv(b) && BagOk(b, bag, d) && bag != [] && d < |b.totalDelivered|
    ensures bag[0].id >= b.first
    ensures Delivered(b, DeliverOne(b, d, bag[0]), d, bag[0].id - b.first)
  {
    assert CarriedBy(b, bag[0].id, d);
    ClearsOnlyIts(b, bag[0].id - b.first);
  }

  lemma DeliveryKeepsRecords(b: Book, b': Book, d: nat, i: nat)
    requires RecordsInv(b) && Delivered(b, b', d, i)
    ensures RecordsInv(b')
  {
    forall j | 0 <= j < |b'.orders| ensures RecordOk(b'.orders[j], b'.first + j) {
      assert RecordOk(b.orders[j], b.first + j);
    }
  }

  lemma DeliveryKeepsChefs(b: Book, b': Book, chefs: seq<Chef>, d: nat, i: nat)
    requires ChefsInv(b, chefs) && Delivered(b, b', d, i) && b.orders[i].status == 4
    ensures ChefsInv(b', chefs)
  {
    SameHolders(b, b', chefs, chefs);
  }

  /** An order with another id than the delivered one is carried on. */
  lemma OtherItem(b: Book, b': Book, id: int, d: nat, i: nat, e: nat)
    requires CarriedBy(b, id, e) && Delivered(b, b', d, i) && id != b.first + i
    ensures CarriedBy(b', id, e)
  {
    var j: nat := id - b.first;
    assert j != i && b'.orders[j] == b.orders[j];
  }

  /** The order at `i` is in the bag of its own deliverer only, and only at the front. */
  lemma NotDelivered(b: Book, bag: seq<Order>, d: nat, i: nat, e: nat, k: nat)
    requires BagOk(b, bag, e) && IsAt(b.carrier, i, d) && k < |bag|
    requires d == e ==> k > 0 && bag[0].id == b.first + i
    ensures bag[k].id != b.first + i
  {
    assert CarriedBy(b, bag[k].id, e);
  }

  lemma DeliveryKeepsBag(b: Book, b': Book, bag: seq<Order>, d: nat, i: nat, e: nat)
    requires BagOk(b, bag, e) && Delivered(b, b', d, i) && IsAt(b.carrier, i, d)
    requires d == e ==> bag != [] && bag[0].id == b.first + i
    ensures BagOk(b', if d == e then bag[1..] else bag, e)
  {
    hide CarriedBy, Delivered, IsAt;
    var rest, skipped := if d == e then bag[1..] else bag, One(d == e);
    forall k | 0 <= k < |rest| ensures CarriedBy(b', rest[k].id, e) {
      assert rest[k] == bag[k + skipped];
      NotDelivered(b, bag, d, i, e, k + skipped);
      OtherItem(b, b', bag[k + skipped].id, d, i, e);
    }
  }

  lemma StillCarried(b: Book, b': Book, ds: seq<Deliverer>, d: nat, bag: seq<Order>, i: nat, j: nat)
    requires d < |ds| && ds[d] == Carrying(bag) && bag != [] && bag[0].id == b.first + i
    requires Delivered(b, b', d, i) && j < |b.orders| && HasDeliverer(b, ds, j)
    ensures HasDeliverer(b', ds[d := Carrying(bag[1..])], j)
  {
    if j != i && b.orders[j].status == 4 && b.carrier[j] == d {
      var k :| 0 <= k < |bag| && bag[k].id == b.first + j;
      assert bag[1..][k - 1].id == b.first + j;
    }
  }

  lemma DeliveryKeepsBags(b: Book, b': Book, ds: seq<Deliverer>, d: nat, bag: seq<Order>, i: nat)
    requires DeliverersInv(b, ds) && d < |ds| && ds[d] == Carrying(bag) && bag != [] && bag[0].id == b.first + i
    requires Delivered(b, b', d, i)
    ensures DeliverersInv(b', ds[d := Carrying(bag[1..])])
  {
    hide HasDeliverer;
    var ds' := ds[d := Carrying(bag[1..])];
    assert BagOk(b, BagOf(ds[d]), d) && CarriedBy(b, bag[0].id, d);
    hide CarriedBy, DistinctIds;
    forall j | 0 <= j < |b'.orders| ensures HasDeliverer(b', ds', j) {
      StillCarried(b, b', ds, d, bag, i, j);
    }
    forall e | 0 <= e < |ds'| ensures BagOk(b', BagOf(ds'[e]), e) {
      DeliveryKeepsBag(b, b', BagOf(ds[e]), d, i, e);
    }
  }

  lemma DeliveryKeepsCounters(b: Book, b': Book, deliverers: nat, d: nat, i: nat)
    requires CountersInv(b, deliverers) && Delivered(b, b', d, i) && IsLive(b.orders[i])
    ensures CountersInv(b', deliverers)
  {
    CountUpdate(b.orders, i, CLEARED, IsLive);
    SumUpdate(b.totalDelivered, d, b.totalDelivered[d] + 1, Itself);
  }

  predicate IsReady(o: Order) { o.status == 3 }

  /** How many orders the collecting loop takes. */
  lemma {:induction false} ReadyCount(orders: seq<Order>, i: nat, room: nat)
    requires i <= |orders|
    ensures var ready := Count(orders, IsReady) - CountTo(orders, i, IsReady);
            ready >= 0 && |Ready(orders, i, room)| == if ready < room then ready else room
    decreases |orders| - i
  {
    if i < |orders| {
      ReadyCount(orders, i + 1, if IsReady(orders[i]) && room > 0 then room - 1 else room);
    }
  }

  /** A deliverer takes all orders that are ready if there are at most three, and three of them if
      there are more. */
  lemma CollectsUpToThree(s: State, d: nat)
    requires d < |s.deliverers| && s.deliverers[d].Waiting? && s.book.numOrders != 0
    ensures var ready, k := Count(s.book.orders, IsReady), Collect(s, d).deliverers[d];
            if ready == 0 then Collect(s, d) == s
            else k.Carrying? && |k.bag| == if ready < 3 then ready else 3
  {
    ReadyCount(s.book.orders, 0, MAX_DELIVERY_BAG_CAPACITY);
    ReadyTakes(s.book.orders);
  }

  /** The record at the place that the id of `o` gives was ready and is `o` now. */
  predicate WasReady(b: Book, now: seq<Order>, o: Order) {
    var i := o.id - b.first;
    0 <= i < |b.orders| == |now| && b.orders[i].status == 3 && now[i] == o && o == b.orders[i].(status := 4)
  }

  lemma BagItem(b: Book, taken: seq<nat>, l: nat)
    requires (forall k :: 0 <= k < |taken| ==> taken[k] < |b.orders|) && l < |taken|
    requires RecordOk(b.orders[taken[l]], b.first + taken[l]) && b.orders[taken[l]].status == 3
    ensures Bag(b.orders, taken)[l].id == b.first + taken[l]
    ensures WasReady(b, Marked(b.orders, taken), Bag(b.orders, taken)[l])
  {
    var i := taken[l];
    assert i in taken;
    assert Marked(b.orders, taken)[i] == b.orders[i].(status := 4);
  }

  /** A full or partly filled bag holds orders that were ready, in the order of their records. */
  lemma BagInOrder(s: State, d: nat)
    requires RecordsInv(s.book) && d < |s.deliverers| && s.deliverers[d].Waiting?
    ensures var t := Collect(s, d);
            var k := t.deliverers[d];
            k.Carrying? ==>
              && (forall l :: 0 <= l < |k.bag| ==> WasReady(s.book, t.book.orders, k.bag[l]))
              && (forall l, m :: 0 <= l < m < |k.bag| ==> k.bag[l].id < k.bag[m].id)
  {
    var b := s.book;
    var taken := Ready(b.orders, 0, MAX_DELIVERY_BAG_CAPACITY);
    ReadyTakes(b.orders);
    if b.numOrders != 0 && taken != [] {
      ReadyIncreases(b.orders);
      var bag := Bag(b.orders, taken);
      hide RecordsInv, WasReady, Ready;
      forall l | 0 <= l < |bag|
        ensures bag[l].id == b.first + taken[l] && WasReady(b, Marked(b.orders, taken), bag[l])
      {
        RecordAt(b, taken[l]);
        BagItem(b, taken, l);
      }
    }
  }

  lemma ReadyIncreases(orders: seq<Order>)
    ensures var taken := Ready(orders, 0, MAX_DELIVERY_BAG_CAPACITY);
            forall l, m :: 0 <= l < m < |taken| ==> taken[l] < taken[m]
  {
    ReadyIs(orders, 0, MAX_DELIVERY_BAG_CAPACITY);
  }

  /** Delivering a bag adds its orders to the count of the deliverer that carries it, and to no
      other, and takes them off the orders. */
  lemma {:induction false} DeliveryIsCounted(b: Book, d: nat, bag: seq<Order>)
    requires d < |b.totalDelivered|
    ensures var b' := DeliverAll(b, d, bag);
            && b'.totalDelivered == b.totalDelivered[d := b.totalDelivered[d] + |bag|]
            && b'.numOrders == b.numOrders - |bag|
    decreases |bag|
  {
    if bag == [] {
      assert b.totalDelivered[d := b.totalDelivered[d]] == b.totalDelivered;
    } else {
      DeliveryIsCounted(DeliverOne(b, d, bag[0]), d, bag[1..]);
    }
  }

  // ............................................................................. one batch

  lemma {:induction false} CountAllTo(orders: seq<Order>, n: nat, p: Order -> bool)
    requires n <= |orders| && forall i :: 0 <= i < n ==> p(orders[i])
    ensures CountTo(orders, n, p) == n
  {
    if n > 0 {
      CountAllTo(orders, n - 1, p);
    }
  }

  lemma {:induction false} CountedAllTo(orders: seq<Order>, n: nat, p: Order -> bool)
    requires n <= |orders|
    ensures CountTo(orders, n, p) <= n
    ensures CountTo(orders, n, p) == n ==> forall i :: 0 <= i < n ==> p(orders[i])
  {
    if n > 0 {
      CountedAllTo(orders, n - 1, p);
    }
  }

  lemma BagHasOrder(b: Book, bag: seq<Order>, d: nat)
    requires BagOk(b, bag, d) && bag != []
    ensures exists i :: 0 <= i < |b.orders| && IsLive(b.orders[i])
  {
    assert CarriedBy(b, bag[0].id, d);
    assert IsLive(b.orders[bag[0].id - b.first]);
  }

  /** When no order is left, every record is zeroed, no chef holds anything and no bag either. */
  lemma ShopIsEmpty(s: State)
    requires RecordsInv(s.book) && ChefsInv(s.book, s.chefs) && DeliverersInv(s.book, s.deliverers)
    requires Count(s.book.orders, IsLive) == 0
    ensures forall i :: 0 <= i < |s.book.orders| ==> s.book.orders[i] == CLEARED
    ensures forall c :: 0 <= c < |s.chefs| ==> Held(s.chefs[c]).None?
    ensures forall d :: 0 <= d < |s.deliverers| ==> BagOf(s.deliverers[d]) == []
  {
    var b := s.book;
    CountZero(b.orders, IsLive);
    forall i | 0 <= i < |b.orders| ensures b.orders[i] == CLEARED {
      assert !IsLive(b.orders[i]) && RecordOk(b.orders[i], b.first + i);
    }
    forall c | 0 <= c < |s.chefs| ensures Held(s.chefs[c]).None? {
      assert ChefOk(b, s.chefs[c], c);
    }
    forall d | 0 <= d < |s.deliverers| ensures BagOf(s.deliverers[d]) == [] {
      var bag := BagOf(s.deliverers[d]);
      assert BagOk(b, bag, d);
      if bag != [] {
        BagHasOrder(b, bag, d);
      }
    }
  }

  /** New orders fill the array with consecutive ids. */
  lemma NewBatch(s: State, before: seq<Order>, incoming: seq<Order>)
    requires |before| == |incoming| && forall i :: 0 <= i < |incoming| ==> IsNew(incoming[i])
    ensures var b, b' := s.book, Arrive(s, before, incoming).book;
            && |b'.orders| == |incoming| && b'.numOrders == b.numOrders + |incoming|
            && b'.allOrders == b.allOrders + |incoming| && Count(b'.orders, IsLive) == |incoming|
            && forall i :: 0 <= i < |incoming| ==> b'.orders[i] == Order(b.allOrders + i, 0, 0, 1)
  {
    var b := Arrive(s, before, incoming).book;
    forall i | 0 <= i < |incoming| ensures b.orders[i] == Order(s.book.allOrders + i, 0, 0, 1) {
      CountAllTo(incoming, i, HasStatus0);
      assert IsNew(incoming[i]);
    }
    CountAllTo(incoming, |incoming|, HasStatus0);
    CountAllTo(b.orders, |incoming|, IsLive);
  }

  lemma BatchKeepsOrders(s: State, before: seq<Order>, incoming: seq<Order>)
    requires RecordsInv(s.book) && ChefsInv(s.book, s.chefs) && DeliverersInv(s.book, s.deliverers)
    requires Count(s.book.orders, IsLive) == 0
    requires |before| == |incoming| && forall i :: 0 <= i < |incoming| ==> IsNew(incoming[i])
    ensures var t := Arrive(s, before, incoming);
            RecordsInv(t.book) && ChefsInv(t.book, t.chefs) && DeliverersInv(t.book, t.deliverers)
  {
    var t := Arrive(s, before, incoming);
    ShopIsEmpty(s);
    NewBatch(s, before, incoming);
    hide Stored;
    forall c | 0 <= c < |t.chefs| ensures ChefOk(t.book, t.chefs[c], c) {
      assert Held(s.chefs[c]).None?;
    }
    forall d | 0 <= d < |t.deliverers| ensures BagOk(t.book, BagOf(t.deliverers[d]), d) {
      assert BagOf(s.deliverers[d]) == [];
    }
  }

  lemma BatchKeepsCounters(s: State, before: seq<Order>, incoming: seq<Order>)
    requires CountersInv(s.book, |s.deliverers|) && s.book.numOrders == 0
    requires |before| == |incoming| && forall i :: 0 <= i < |incoming| ==> IsNew(incoming[i])
    ensures CountersInv(Arrive(s, before, incoming).book, |s.deliverers|)
  {
    NewBatch(s, before, incoming);
  }

  // ------------------------------------------------------------------------- the invariant

  ghost predicate OrdersInv(s: State) {
    && RecordsInv(s.book) && ChefsInv(s.book, s.chefs) && DeliverersInv(s.book, s.deliverers)
    && CountersInv(s.book, |s.deliverers|)
  }

  ghost predicate Inv(s: State) {
    OvenInv(s) && OrdersInv(s) && SleepInv(s)
  }

  /** The same book, but for records that have moved on without being cleared. */
  ghost predicate SameCounters(b: Book, b': Book) {
    && |b'.orders| == |b.orders| && (forall i :: 0 <= i < |b.orders| ==> b'.orders[i].send == b.orders[i].send)
    && b' == b.(orders := b'.orders, cook := b'.cook, carrier := b'.carrier)
  }

  lemma SameCountersKeep(b: Book, b': Book, deliverers: nat)
    requires CountersInv(b, deliverers) && SameCounters(b, b')
    ensures CountersInv(b', deliverers)
  {
    SameTo(b.orders, b'.orders, |b.orders|, IsLive, o => 0);
  }

  lemma RecordKeeps(b: Book, i: nat, o: Order)
    requires RecordsInv(b) && i < |b.orders| && RecordOk(o, b.first + i)
    ensures RecordsInv(b.(orders := b.orders[i := o]))
  {
    var b' := b.(orders := b.orders[i := o]);
    forall j | 0 <= j < |b'.orders| ensures RecordOk(b'.orders[j], b'.first + j) {
      assert RecordOk(b.orders[j], b.first + j);
    }
  }

  lemma LookKeepsOrders(s: State, c: nat)
    requires OrdersInv(s) && c < |s.chefs| && s.chefs[c].Looking?
    ensures OrdersInv(Look(s, c))
  {
    hide ChefsInv, DeliverersInv, CountersInv;
    var b, t := s.book, Look(s, c);
    LookKeepsChefs(s, c);
    FirstUnclaimedIs(b.orders, 0);
    if b.numOrders > 0 || b.numOrders < 0 {
      if FirstUnclaimed(b.orders, 0).Some? {
        var i := FirstUnclaimed(b.orders, 0).value;
        assert RecordOk(b.orders[i], b.first + i);
        RecordKeeps(b, i, b.orders[i].(status := 1, isPlaced := 1));
        assert RecordsInv(t.book);
        SameCountersKeep(b, t.book, |s.deliverers|);
        SameBags(b, t.book, s.deliverers, s.deliverers);
      }
    }
  }

  lemma StatusKeepsOrders(b: Book, i: nat, status: int, ds: seq<Deliverer>)
    requires RecordsInv(b) && DeliverersInv(b, ds) && CountersInv(b, |ds|)
    requires i < |b.orders| && WithChef(b.orders[i]) && b.orders[i].send == 1 && 1 <= status <= 3
    ensures var b' := WithStatus(b, i, status); RecordsInv(b') && DeliverersInv(b', ds) && CountersInv(b', |ds|)
  {
    hide DeliverersInv, CountersInv;
    var b' := WithStatus(b, i, status);
    assert RecordOk(b.orders[i], b.first + i);
    RecordKeeps(b, i, b.orders[i].(status := status));
    SameCountersKeep(b, b', |ds|);
    SameBags(b, b', ds, ds);
  }

  lemma CookKeepsOrders(s: State, c: nat, wake: nat)
    requires OrdersInv(s) && c < |s.chefs| && !ChefAsleep(s.chefs[c]) && !s.chefs[c].Looking?
    ensures OrdersInv(Cook(s, c, wake))
  {
    hide RecordsInv, ChefsInv, DeliverersInv, CountersInv;
    var k, t := s.chefs[c], Cook(s, c, wake);
    var i := Held(k).value;
    CookKeepsChefs(s, c, wake);
    HoldsItsOrder(s.book, s.chefs, c);
    CookUpdates(s.oven, s.book, k, i);
    StatusKeepsOrders(s.book, i, if k.Finishes? then 3 else StatusAt(ChefAfter(s.oven, k)), s.deliverers);
    SameBags(t.book, t.book, s.deliverers, t.deliverers);
  }

  lemma MarkedKeeps(b: Book, b': Book, taken: seq<nat>, chefs: seq<Chef>, deliverers: nat)
    requires RecordsInv(b) && ChefsInv(b, chefs) && CountersInv(b, deliverers) && Takes(b.orders, taken)
    requires b' == b.(orders := Marked(b.orders, taken), carrier := b'.carrier)
    ensures RecordsInv(b') && ChefsInv(b', chefs) && CountersInv(b', deliverers)
  {
    hide ChefsInv, CountersInv;
    forall i | 0 <= i < |b'.orders|
      ensures RecordOk(b'.orders[i], b'.first + i) && b'.orders[i].send == b.orders[i].send
              && (b'.orders[i] == b.orders[i] || (b.orders[i].status == 3 && b'.orders[i].status == 4))
    {
      assert RecordOk(b.orders[i], b.first + i);
    }
    SameCountersKeep(b, b', deliverers);
    SameHolders(b, b', chefs, chefs);
  }

  lemma CollectKeepsOrders(s: State, d: nat)
    requires OrdersInv(s) && d < |s.deliverers| && s.deliverers[d].Waiting?
    ensures OrdersInv(Collect(s, d))
  {
    hide RecordsInv, ChefsInv, DeliverersInv, CountersInv;
    var b, t := s.book, Collect(s, d);
    var taken := Ready(b.orders, 0, MAX_DELIVERY_BAG_CAPACITY);
    ReadyTakes(b.orders);
    if b.numOrders == 0 {
      SameBags(b, b, s.deliverers, t.deliverers);
    } else if taken != [] {
      MarkedKeeps(b, t.book, taken, s.chefs, |s.deliverers|);
      CollectKeepsBags(b, t.book, s.deliverers, d, taken);
    }
  }

  lemma DeliveryKeepsOrders(s: State, d: nat, bag: seq<Order>)
    requires OrdersInv(s) && d < |s.deliverers| && s.deliverers[d] == Carrying(bag) && bag != []
    ensures OrdersInv(s.(deliverers := s.deliverers[d := Carrying(bag[1..])], book := DeliverOne(s.book, d, bag[0])))
  {
    hide RecordsInv, ChefsInv;
    var b, b' := s.book, DeliverOne(s.book, d, bag[0]);
    assert BagOk(b, BagOf(s.deliverers[d]), d);
    DeliverOneDelivers(b, d, bag);
    var i := bag[0].id - b.first;
    assert b.orders[i].status == 4 && IsLive(b.orders[i]);
    hide DeliverersInv, CountersInv, BagOk, Delivered;
    DeliveryKeepsRecords(b, b', d, i);
    DeliveryKeepsChefs(b, b', s.chefs, d, i);
    DeliveryKeepsBags(b, b', s.deliverers, d, bag, i);
    DeliveryKeepsCounters(b, b', |s.deliverers|, d, i);
  }

  lemma {:induction false} DeliverAllKeepsOrders(s: State, d: nat, bag: seq<Order>)
    requires OrdersInv(s) && d < |s.deliverers| && s.deliverers[d] == Carrying(bag)
    ensures OrdersInv(s.(deliverers := s.deliverers[d := Waiting], book := DeliverAll(s.book, d, bag)))
    ensures DeliverAll(s.book, d, bag).numOrders <= s.book.numOrders
    decreases |bag|
  {
    hide RecordsInv, ChefsInv, CountersInv;
    if bag == [] {
      hide DeliverersInv;
      SameBags(s.book, s.book, s.deliverers, s.deliverers[d := Waiting]);
    } else {
      hide OrdersInv;
      var t := s.(deliverers := s.deliverers[d := Carrying(bag[1..])], book := DeliverOne(s.book, d, bag[0]));
      DeliveryKeepsOrders(s, d, bag);
      DeliverAllKeepsOrders(t, d, bag[1..]);
      assert t.deliverers[d := Waiting] == s.deliverers[d := Waiting];
    }
  }

  lemma BatchKeepsAll(s: State, before: seq<Order>, incoming: seq<Order>)
    requires OrdersInv(s) && s.book.numOrders == 0
    requires |before| == |incoming| && forall i :: 0 <= i < |incoming| ==> IsNew(incoming[i])
    ensures OrdersInv(Arrive(s, before, incoming)) && SleepInv(Arrive(s, before, incoming))
  {
    BatchKeepsCounters(s, before, incoming);
    BatchKeepsOrders(s, before, incoming);
  }

  /** The records agree with the counters only if every order was taken over and can be cooked. */
  lemma CoherentBatchIsNew(s: State, before: seq<Order>, incoming: seq<Order>)
    requires |before| == |incoming| && OrdersInv(Arrive(s, before, incoming))
    ensures forall i :: 0 <= i < |incoming| ==> IsNew(incoming[i])
  {
    hide ChefsInv, DeliverersInv;
    var b := Arrive(s, before, incoming).book;
    CountedAllTo(incoming, |incoming|, HasStatus0);
    forall i | 0 <= i < |incoming| ensures IsNew(incoming[i]) {
      assert RecordOk(b.orders[i], b.first + i) && HasStatus0(incoming[i]);
    }
  }

  /** The program does not look whether a batch is still being served when the next one comes,
      nor at what an order says of itself but for its status.  The shop stays coherent exactly
      when no order is left and every order that comes is new. */
  lemma BatchIsCoherentIff(s: State, before: seq<Order>, incoming: seq<Order>)
    requires OrdersInv(s) && |before| == |incoming|
    ensures OrdersInv(Arrive(s, before, incoming)) <==>
            s.book.numOrders == 0 && forall i :: 0 <= i < |incoming| ==> IsNew(incoming[i])
  {
    if OrdersInv(Arrive(s, before, incoming)) {
      CoherentBatchIsNew(s, before, incoming);
      NewBatch(s, before, incoming);
    } else if s.book.numOrders == 0 && forall i :: 0 <= i < |incoming| ==> IsNew(incoming[i]) {
      BatchKeepsAll(s, before, incoming);
    }
  }

  lemma SpuriousKeepsOrders(s: State, a: Action)
    requires OrdersInv(s) && Enabled(s, a) && (a.SpuriousChef? || a.SpuriousDeliverer?)
    ensures OrdersInv(Do(s, a))
  {
    hide RecordsInv, ChefsInv, DeliverersInv, CountersInv;
    SameHolders(s.book, s.book, s.chefs, Do(s, a).chefs);
    SameBags(s.book, s.book, s.deliverers, Do(s, a).deliverers);
  }

  lemma StepKeepsOrders(s: State, a: Action)
    requires OrdersInv(s) && Enabled(s, a)
    ensures OrdersInv(Do(s, a))
  {
    hide OrdersInv;
    match a
    case ChefStep(c, wake) =>
      if s.chefs[c].Looking? {
        LookKeepsOrders(s, c);
      } else {
        CookKeepsOrders(s, c, wake);
      }
    case DelivererStep(d) =>
      if s.deliverers[d].Waiting? {
        CollectKeepsOrders(s, d);
      } else {
        DeliverAllKeepsOrders(s, d, s.deliverers[d].bag);
      }
    case Batch(before, incoming) => BatchKeepsAll(s, before, incoming);
    case SpuriousChef(c) => SpuriousKeepsOrders(s, a);
    case SpuriousDeliverer(d) => SpuriousKeepsOrders(s, a);
  }

  lemma CookKeepsSleep(s: State, c: nat, wake: nat)
    requires SleepInv(s) && c < |s.chefs| && !s.chefs[c].Looking?
    ensures SleepInv(Cook(s, c, wake))
  {
  }

  lemma StepKeepsSleep(s: State, a: Action)
    requires OrdersInv(s) && SleepInv(s) && Enabled(s, a)
    ensures SleepInv(Do(s, a))
  {
    match a
    case ChefStep(c, wake) =>
      hide OrdersInv;
      if !s.chefs[c].Looking? {
        CookKeepsSleep(s, c, wake);
      }
    case DelivererStep(d) =>
      hide RecordsInv, ChefsInv, DeliverersInv, CountersInv;
      if s.deliverers[d].Carrying? {
        DeliverAllKeepsOrders(s, d, s.deliverers[d].bag);
      }
    case Batch(before, incoming) => BatchKeepsAll(s, before, incoming);
    case SpuriousChef(c) =>
    case SpuriousDeliverer(d) =>
  }

  lemma StepKeepsInv(s: State, a: Action)
    requires Inv(s) && Enabled(s, a)
    ensures Inv(Do(s, a))
  {
    hide OvenInv, OrdersInv, SleepInv;
    StepKeepsOven(s, a);
    StepKeepsOrders(s, a);
    StepKeepsSleep(s, a);
  }

  // ------------------------------------------------------------------------------ theorems

  ghost predicate Reachable(chefs: nat, deliverers: nat, s: State) {
    Reaches(Step, Init(chefs, deliverers), s)
  }

  lemma InitInv(chefs: nat, deliverers: nat)
    ensures Inv(Init(chefs, deliverers))
  {
    var s := Init(chefs, deliverers);
    CountZero(s.chefs, HasSlot);
    CountZero(s.chefs, HasPeel);
    CountZero(s.chefs, InOven);
    CountZero(s.chefs, SleepsOnSlot);
    CountZero(s.chefs, SleepsOnPeel);
    CountZero(s.chefs, SleepsOnOven);
    NothingDelivered(s.book.totalDelivered, deliverers);
  }

  lemma {:induction false} NothingDelivered(delivered: seq<nat>, n: nat)
    requires n <= |delivered| && forall d :: 0 <= d < |delivered| ==> delivered[d] == 0
    ensures SumTo(delivered, n, Itself) == 0
  {
    if n > 0 {
      NothingDelivered(delivered, n - 1);
    }
  }

  ghost predicate Sound(s: State, chefs: nat, deliverers: nat) {
    Inv(s) && |s.chefs| == chefs && |s.deliverers| == deliverers
  }

  lemma StepKeepsSound(s: State, a: Action)
    requires Inv(s) && Step(s, a).Some?
    ensures Sound(Step(s, a).value, |s.chefs|, |s.deliverers|)
  {
    hide Inv;
    StepKeepsInv(s, a);
  }

  lemma ReachableInv(chefs: nat, deliverers: nat, s: State)
    requires Reachable(chefs, deliverers, s)
    ensures Inv(s) && |s.chefs| == chefs && |s.deliverers| == deliverers
  {
    hide Inv;
    InitInv(chefs, deliverers);
    var inv := t => Sound(t, chefs, deliverers);
    forall t, a | inv(t) && Step(t, a).Some?
      ensures inv(Step(t, a).value)
    {
      StepKeepsSound(t, a);
    }
    ReachesKeeps(Step, inv, Init(chefs, deliverers), s);
  }

  /** Slots and peels are conserved, ovenCapacity is the number of chefs that cook, it is never
      above the number of slots, and so no chef ever waits for the oven itself. */
  lemma OvenIsAccounted(chefs: nat, deliverers: nat, s: State)
    requires Reachable(chefs, deliverers, s)
    ensures 0 <= s.oven.slots && s.oven.slots + Count(s.chefs, HasSlot) == 2
    ensures 0 <= s.oven.peels && s.oven.peels + Count(s.chefs, HasPeel) == 3
    ensures s.oven.capacity == Count(s.chefs, InOven) && s.oven.capacity <= 2 < MAX_OVEN_CAPACITY == 6
    ensures forall c :: 0 <= c < |s.chefs| ==> !s.chefs[c].AwaitOven?
  {
    hide OrdersInv;
    ReachableInv(chefs, deliverers, s);
    CountZero(s.chefs, SleepsOnOven);
    forall c | 0 <= c < |s.chefs| ensures !s.chefs[c].AwaitOven? {
      assert !SleepsOnOven(s.chefs[c]);
    }
  }

  /** Orders are conserved.  While a batch is served the undelivered and the delivered orders
      make it up; over all batches what the deliverers have delivered is what was taken less what
      is left; and the notification was sent once for each batch that is finished, but never for
      one without orders. */
  lemma OrdersAreConserved(chefs: nat, deliverers: nat, s: State)
    requires Reachable(chefs, deliverers, s)
    ensures s.book.numOrders == Count(s.book.orders, IsLive)
    ensures s.book.numOrders > 0 ==> s.book.numOrders + s.book.deliveredOrders == |s.book.orders|
    ensures s.book.numOrders == 0 ==> s.book.deliveredOrders == 0
    ensures Sum(s.book.totalDelivered, Itself) + s.book.numOrders == s.book.allOrders
    ensures s.book.notifications == s.book.batches - s.book.emptyBatches - One(s.book.numOrders > 0)
  {
    hide OvenInv, RecordsInv, ChefsInv, DeliverersInv, SleepInv;
    ReachableInv(chefs, deliverers, s);
  }

  /** No wakeup is lost: while there is an order nobody sleeps on orderAvailable; while a chef
      sleeps on a slot or a peel, there are chefs awake that will take every free one. */
  lemma NobodyOversleeps(chefs: nat, deliverers: nat, s: State)
    requires Reachable(chefs, deliverers, s)
    ensures s.book.numOrders > 0 ==>
      && (forall c :: 0 <= c < |s.chefs| ==> !s.chefs[c].AwaitOrder?)
      && (forall d :: 0 <= d < |s.deliverers| ==> !s.deliverers[d].Asleep?)
    ensures Count(s.chefs, SleepsOnSlot) > 0 ==> s.oven.slots <= Count(s.chefs, TriesSlot)
    ensures Count(s.chefs, SleepsOnPeel) > 0 ==> s.oven.peels <= Count(s.chefs, TriesPeel)
  {
    hide OrdersInv;
    ReachableInv(chefs, deliverers, s);
  }

  // What the steps of a chef do.

  /** How many threads sleep on each condition variable. */
  function OnOrder(s: State): nat { Count(s.chefs, SleepsOnOrder) + Count(s.deliverers, DelivererAsleep) }
  function OnSlot(s: State): nat { Count(s.chefs, SleepsOnSlot) }
  function OnPeel(s: State): nat { Count(s.chefs, SleepsOnPeel) }
  function OnOven(s: State): nat { Count(s.chefs, SleepsOnOven) }

  function OneLess(n: nat): nat { if n > 0 then n - 1 else 0 }

  lemma WakingOne(chefs: seq<Chef>, wake: nat, asleep: Chef -> bool, p: Chef -> bool)
    requires wake < |chefs| && asleep(chefs[wake])
    ensures Count(WakeOne(chefs, wake, asleep), p) + One(p(chefs[wake])) == Count(chefs, p) + One(p(Woken(chefs[wake])))
  {
    CountUpdate(chefs, wake, Woken(chefs[wake]), p);
  }

  lemma ChefsAfter(s: State, c: nat, wake: nat, asleep: Chef -> bool)
    requires c < |s.chefs| && !s.chefs[c].Looking? && !ChefAsleep(s.chefs[c]) && Signals(s.chefs[c]) == Some(asleep)
    ensures var moved := s.chefs[c := ChefAfter(s.oven, s.chefs[c])];
            && Cook(s, c, wake).chefs == WakeOne(moved, wake, asleep)
            && Count(moved, SleepsOnOrder) == Count(s.chefs, SleepsOnOrder) && Count(moved, SleepsOnSlot) == OnSlot(s)
            && Count(moved, SleepsOnPeel) == OnPeel(s) && Count(moved, SleepsOnOven) == OnOven(s)
  {
    var l := ChefAfter(s.oven, s.chefs[c]);
    CountUpdate(s.chefs, c, l, SleepsOnOrder);
    CountUpdate(s.chefs, c, l, SleepsOnSlot);
    CountUpdate(s.chefs, c, l, SleepsOnPeel);
    CountUpdate(s.chefs, c, l, SleepsOnOven);
  }

  /** Taking an order out of the oven signals the oven, freeing a slot or a peel signals that: one
      sleeper is woken if there is any, and nobody who sleeps on something else. */
  lemma FreeingWakesOne(s: State, c: nat, wake: nat)
    requires Enabled(s, ChefStep(c, wake))
    requires s.chefs[c].Cooking? || s.chefs[c].FreesSlot? || s.chefs[c].FreesPeel?
    ensures var k, t := s.chefs[c], Do(s, ChefStep(c, wake));
            && OnOven(t) == (if k.Cooking? then OneLess(OnOven(s)) else OnOven(s))
            && OnSlot(t) == (if k.FreesSlot? then OneLess(OnSlot(s)) else OnSlot(s))
            && OnPeel(t) == (if k.FreesPeel? then OneLess(OnPeel(s)) else OnPeel(s))
            && OnOrder(t) == OnOrder(s)
  {
    var asleep := Signals(s.chefs[c]).value;
    ChefsAfter(s, c, wake, asleep);
    var moved := s.chefs[c := ChefAfter(s.oven, s.chefs[c])];
    CountZero(s.chefs, asleep);
    if wake < |s.chefs| && asleep(s.chefs[wake]) {
      WakingOne(moved, wake, asleep, SleepsOnOrder);
      WakingOne(moved, wake, asleep, SleepsOnSlot);
      WakingOne(moved, wake, asleep, SleepsOnPeel);
      WakingOne(moved, wake, asleep, SleepsOnOven);
    } else {
      NobodyWakes(moved, wake, asleep);
    }
  }

  lemma NobodyWakes(chefs: seq<Chef>, wake: nat, asleep: Chef -> bool)
    requires Count(chefs, asleep) == 0
    ensures WakeOne(chefs, wake, asleep) == chefs
  {
    CountZero(chefs, asleep);
  }

  /** A chef that puts down a finished order wakes one chef or deliverer that sleeps on
      orderAvailable, if there is any. */
  lemma FinishingWakesOne(s: State, c: nat, wake: nat)
    requires Enabled(s, ChefStep(c, wake)) && s.chefs[c].Finishes?
    ensures var t := Do(s, ChefStep(c, wake));
            && OnOrder(t) == OneLess(OnOrder(s))
            && OnSlot(t) == OnSlot(s) && OnPeel(t) == OnPeel(s) && OnOven(t) == OnOven(s)
  {
    ChefsAfter(s, c, wake, SleepsOnOrder);
    var moved := s.chefs[c := ChefAfter(s.oven, s.chefs[c])];
    CountZero(s.chefs, SleepsOnOrder);
    if wake < |s.chefs| && SleepsOnOrder(s.chefs[wake]) {
      WakingOne(moved, wake, SleepsOnOrder, SleepsOnOrder);
      WakingOne(moved, wake, SleepsOnOrder, SleepsOnSlot);
      WakingOne(moved, wake, SleepsOnOrder, SleepsOnPeel);
      WakingOne(moved, wake, SleepsOnOrder, SleepsOnOven);
    } else {
      assert Cook(s, c, wake).chefs == moved;
      if |s.chefs| <= wake < |s.chefs| + |s.deliverers| {
        CountUpdate(s.deliverers, wake - |s.chefs|, Waiting, DelivererAsleep);
      }
    }
  }

  /** A chef that holds an order goes through the oven in the order of the source: a slot, a peel
      and the oven are taken one after the other, waiting where there is none, and given back as
      the oven, the slot and the peel. */
  lemma ChefFollowsTheSource(s: State, c: nat, wake: nat, i: nat)
    requires Enabled(s, ChefStep(c, wake)) && Held(s.chefs[c]) == Some(i) && i < |s.book.orders|
    ensures var k, t := s.chefs[c], Do(s, ChefStep(c, wake));
            var l, o, o' := t.chefs[c], s.oven, t.oven;
            && (k == WantsSlot(i) ==>
                  if o.slots > 0 then l == WantsPeel(i) && o' == Oven(o.slots - 1, o.peels, o.capacity)
                  else l == AwaitSlot(i) && o' == o)
            && (k == WantsPeel(i) ==>
                  if o.peels > 0 then l == WantsOven(i) && o' == Oven(o.slots, o.peels - 1, o.capacity)
                  else l == AwaitPeel(i) && o' == o)
            && (k == WantsOven(i) ==>
                  if o.capacity < 6
                  then l == Cooking(i) && o' == Oven(o.slots, o.peels, o.capacity + 1) && t.book.orders[i].status == 2
                  else l == AwaitOven(i) && o' == o)
            && (k == Cooking(i) ==> l == FreesSlot(i) && o' == Oven(o.slots, o.peels, o.capacity - 1))
            && (k == FreesSlot(i) ==> l == FreesPeel(i) && o' == Oven(o.slots + 1, o.peels, o.capacity))
            && (k == FreesPeel(i) ==> l == Finishes(i) && o' == Oven(o.slots, o.peels + 1, o.capacity))
            && (k == Finishes(i) ==> l == Looking && o' == o && t.book.orders[i].status == 3)
  {
    match s.chefs[c]
    case WantsSlot(_) =>
    case WantsPeel(_) =>
    case WantsOven(_) =>
    case Cooking(_) =>
    case FreesSlot(_) =>
    case FreesPeel(_) =>
    case Finishes(_) =>
  }

  /** A batch wakes everybody who sleeps on orderAvailable, and nobody else. */
  lemma BatchWakesAll(s: State, before: seq<Order>, incoming: seq<Order>)
    requires |before| == |incoming|
    ensures var t := Arrive(s, before, incoming);
            && OnOrder(t) == 0 && OnSlot(t) == OnSlot(s) && OnPeel(t) == OnPeel(s) && OnOven(t) == OnOven(s)
            && t.oven == s.oven
  {
    var t := Arrive(s, before, incoming);
    CountZero(t.chefs, SleepsOnOrder);
    CountZero(t.deliverers, DelivererAsleep);
    BatchKeepsOven(s.chefs);
  }

  // ------------------------------------------------------------------ the life of an order

  /** How far an order has come; 5 once it is delivered and its record zeroed. */
  function Stage(o: Order): int {
    if o.send == 1 then o.status else 5
  }

  /** Who had a part in the order at index `i`. */
  ghost predicate SameHands(b: Book, b': Book, i: nat) {
    && (i in b.cook ==> IsAt(b'.cook, i, b.cook[i]))
    && (i in b.carrier ==> IsAt(b'.carrier, i, b.carrier[i]))
  }

  /** What action `a` may do to the order at index `i`: nothing; or the one step that comes next
      in its life, done by the chef or the deliverer whose order it is. */
  ghost predicate LivesOn(s: State, a: Action, t: State, i: nat)
    requires i < |s.book.orders|
  {
    var b, b' := s.book, t.book;
    && |b'.orders| == |b.orders|
    && var o, o' := b.orders[i], b'.orders[i];
       if o' == o then SameHands(b, b', i)
       else
         match o.status
         case 0 => a.ChefStep? && Unclaimed(o) && o' == o.(status := 1, isPlaced := 1) && IsAt(b'.cook, i, a.c)
         case 1 => a.ChefStep? && o' == o.(status := 2) && IsAt(b.cook, i, a.c) && SameHands(b, b', i)
         case 2 => a.ChefStep? && o' == o.(status := 3) && IsAt(b.cook, i, a.c) && SameHands(b, b', i)
         case 3 => a.DelivererStep? && o' == o.(status := 4) && IsAt(b'.carrier, i, a.d) && b'.cook == b.cook
         case 4 => a.DelivererStep? && o' == CLEARED && IsAt(b.carrier, i, a.d) && SameHands(b, b', i)
         case _ => false
  }

  lemma LookLives(s: State, c: nat, wake: nat, i: nat)
    requires OrdersInv(s) && c < |s.chefs| && s.chefs[c].Looking? && i < |s.book.orders|
    ensures LivesOn(s, ChefStep(c, wake), Look(s, c), i)
  {
    hide OrdersInv;
    FirstUnclaimedIs(s.book.orders, 0);
  }

  lemma CookLives(s: State, c: nat, wake: nat, i: nat)
    requires OrdersInv(s) && c < |s.chefs| && !ChefAsleep(s.chefs[c]) && !s.chefs[c].Looking? && i < |s.book.orders|
    ensures LivesOn(s, ChefStep(c, wake), Cook(s, c, wake), i)
  {
    hide RecordsInv, ChefsInv, DeliverersInv, CountersInv;
    HoldsItsOrder(s.book, s.chefs, c);
    CookUpdates(s.oven, s.book, s.chefs[c], Held(s.chefs[c]).value);
  }

  lemma CollectLives(s: State, d: nat, i: nat)
    requires d < |s.deliverers| && s.deliverers[d].Waiting? && i < |s.book.orders|
    ensures LivesOn(s, DelivererStep(d), Collect(s, d), i)
  {
    var b := s.book;
    var taken := Ready(b.orders, 0, MAX_DELIVERY_BAG_CAPACITY);
    ReadyTakes(b.orders);
    if b.numOrders != 0 && taken != [] {
      MarkedLives(s, Collect(s, d), taken, d, i);
    }
  }

  lemma MarkedLives(s: State, t: State, taken: seq<nat>, d: nat, i: nat)
    requires Takes(s.book.orders, taken) && Carries(s.book, t.book, taken, d) && t.book.cook == s.book.cook
    requires i < |s.book.orders|
    ensures LivesOn(s, DelivererStep(d), t, i)
  {
  }

  /** Emptying a bag zeroes the records of the orders in it, and leaves every other record. */
  lemma {:induction false} DeliverAllLives(s: State, d: nat, bag: seq<Order>, i: nat)
    requires OrdersInv(s) && d < |s.deliverers| && s.deliverers[d] == Carrying(bag) && i < |s.book.orders|
    ensures var b, b' := s.book, DeliverAll(s.book, d, bag);
            && |b'.orders| == |b.orders| && b'.cook == b.cook && b'.carrier == b.carrier
            && (b'.orders[i] == b.orders[i]
                || (b'.orders[i] == CLEARED && b.orders[i].status == 4 && IsAt(b.carrier, i, d)))
    decreases |bag|
  {
    if bag != [] {
      hide RecordsInv, ChefsInv, CountersInv, OrdersInv;
      var b, b' := s.book, DeliverOne(s.book, d, bag[0]);
      var t := s.(deliverers := s.deliverers[d := Carrying(bag[1..])], book := b');
      OneDelivery(s, d, bag);
      DeliveryKeepsOrders(s, d, bag);
      DeliverAllLives(t, d, bag[1..], i);
    }
  }

  lemma OneDelivery(s: State, d: nat, bag: seq<Order>)
    requires OrdersInv(s) && d < |s.deliverers| && s.deliverers[d] == Carrying(bag) && bag != []
    ensures bag[0].id >= s.book.first
    ensures var b, i := s.book, bag[0].id - s.book.first;
            Delivered(b, DeliverOne(b, d, bag[0]), d, i) && b.orders[i].status == 4 && IsAt(b.carrier, i, d)
  {
    hide RecordsInv, ChefsInv;
    assert BagOk(s.book, BagOf(s.deliverers[d]), d);
    DeliverOneDelivers(s.book, d, bag);
  }

  /** An order is only ever taken on to the next stage of its life, by the chef that claimed it
      or the deliverer that carries it. */
  lemma StepLives(s: State, a: Action, i: nat)
    requires OrdersInv(s) && Enabled(s, a) && !a.Batch? && i < |s.book.orders|
    ensures LivesOn(s, a, Do(s, a), i)
  {
    hide OrdersInv;
    match a
    case ChefStep(c, wake) =>
      if s.chefs[c].Looking? {
        LookLives(s, c, wake, i);
      } else {
        CookLives(s, c, wake, i);
      }
    case DelivererStep(d) =>
      if s.deliverers[d].Waiting? {
        CollectLives(s, d, i);
      } else {
        DeliverAllLives(s, d, s.deliverers[d].bag, i);
      }
    case SpuriousChef(c) =>
    case SpuriousDeliverer(d) =>
  }

  /** How many steps of a run change the order at index `i`. */
  function Moves(s: State, acts: seq<Action>, i: nat): nat
    decreases |acts|
  {
    if acts == [] || Step(s, acts[0]).None? || i >= |s.book.orders| then 0
    else
      var t := Do(s, acts[0]);
      (if i < |t.book.orders| then One(t.book.orders[i] != s.book.orders[i]) else 0) + Moves(t, acts[1..], i)
  }

  /** Exactly once: within a batch an order is changed as often as it has come stages further,
      so each of the five stages is passed once and none is passed twice or skipped; and the chef
      that claimed it and the deliverer that took it stay the same to the end. */
  lemma {:induction false} EachStageOnce(s: State, acts: seq<Action>, i: nat)
    requires Inv(s) && i < |s.book.orders|
    requires Exec(Step, s, acts).Some? && forall a :: a in acts ==> !a.Batch?
    ensures var t := Exec(Step, s, acts).value;
            && |t.book.orders| == |s.book.orders|
            && Moves(s, acts, i) == Stage(t.book.orders[i]) - Stage(s.book.orders[i])
            && (Stage(s.book.orders[i]) >= 1 ==> SameCook(s.book, t.book, i))
            && (Stage(s.book.orders[i]) >= 4 ==> SameCarrier(s.book, t.book, i))
    decreases |acts|
  {
    if acts != [] {
      hide Inv, LivesOn, OrdersInv;
      assert acts[0] in acts;
      var t := Do(s, acts[0]);
      StepKeepsInv(s, acts[0]);
      StepStage(s, acts[0], i);
      assert forall a :: a in acts[1..] ==> a in acts;
      EachStageOnce(t, acts[1..], i);
    }
  }

  ghost predicate SameCook(b: Book, b': Book, i: nat) {
    i in b.cook ==> IsAt(b'.cook, i, b.cook[i])
  }

  ghost predicate SameCarrier(b: Book, b': Book, i: nat) {
    i in b.carrier ==> IsAt(b'.carrier, i, b.carrier[i])
  }

  lemma StepStage(s: State, a: Action, i: nat)
    requires Inv(s) && Enabled(s, a) && !a.Batch? && i < |s.book.orders|
    ensures var b, b' := s.book, Do(s, a).book;
            && |b'.orders| == |b.orders|
            && Stage(b'.orders[i]) == Stage(b.orders[i]) + One(b'.orders[i] != b.orders[i])
            && (Stage(b.orders[i]) >= 1 ==> SameCook(b, b', i))
            && (Stage(b.orders[i]) >= 4 ==> SameCarrier(b, b', i))
  {
    hide ChefsInv, DeliverersInv, CountersInv, OvenInv;
    StepLives(s, a, i);
    assert RecordOk(s.book.orders[i], s.book.first + i);
  }

  // ----------------------------------------------------------------- every batch is served

  /** A step of a chef or a deliverer, woken by a signal if it slept, that is not another idle
      look around. */
  function Change(s: State, a: Action): Option<State> {
    if (a.ChefStep? || a.DelivererStep?) && Enabled(s, a) && Do(s, a) != s then Some(Do(s, a)) else None
  }

  /** No chef or deliverer has anything to do. */
  ghost predicate Quiet(s: State) {
    forall a :: Change(s, a).None?
  }

  /** Sleepers are only woken, and orders only move on, as these go down. */
  function ChefCost(k: Chef): nat {
    match k
    case AwaitOrder => 0
    case Looking => 1
    case Finishes(_) => 3
    case FreesPeel(_) => 5
    case FreesSlot(_) => 7
    case Cooking(_) => 9
    case AwaitOven(_) => 10
    case WantsOven(_) => 11
    case AwaitPeel(_) => 12
    case WantsPeel(_) => 13
    case AwaitSlot(_) => 14
    case WantsSlot(_) => 15
  }

  function DelivererCost(k: Deliverer): nat {
    match k
    case Asleep => 0
    case Waiting => 1
    case Carrying(_) => 2
  }

  function OrderCost(o: Order): nat {
    if o.send != 1 then 0
    else if o.status == 0 then 19
    else if o.status <= 3 then 4
    else 2
  }

  function Work(s: State): nat {
    Sum(s.chefs, ChefCost) + Sum(s.deliverers, DelivererCost) + Sum(s.book.orders, OrderCost)
  }

  lemma LookCosts(s: State, c: nat)
    requires c < |s.chefs| && s.chefs[c].Looking? && Look(s, c) != s
    ensures Work(Look(s, c)) < Work(s)
  {
    FirstUnclaimedIs(s.book.orders, 0);
    if s.book.numOrders == 0 {
      SumUpdate(s.chefs, c, AwaitOrder, ChefCost);
    } else {
      var i := FirstUnclaimed(s.book.orders, 0).value;
      SumUpdate(s.chefs, c, WantsSlot(i), ChefCost);
      SumUpdate(s.book.orders, i, s.book.orders[i].(status := 1, isPlaced := 1), OrderCost);
    }
  }

  lemma StepCosts(o: Oven, k: Chef)
    requires !ChefAsleep(k) && !k.Looking?
    ensures ChefCost(ChefAfter(o, k)) + One(Signals(k).Some?) < ChefCost(k)
  {
  }

  lemma WakeCosts(chefs: seq<Chef>, wake: nat, asleep: Chef -> bool)
    ensures Sum(WakeOne(chefs, wake, asleep), ChefCost) <= Sum(chefs, ChefCost) + One(wake < |chefs|)
  {
    if wake < |chefs| {
      SumUpdate(chefs, wake, Woken(chefs[wake]), ChefCost);
    }
  }

  lemma CookOrderCosts(s: State, c: nat)
    requires ChefsInv(s.book, s.chefs) && c < |s.chefs| && !ChefAsleep(s.chefs[c]) && !s.chefs[c].Looking?
    ensures Sum(BookAfter(s.oven, s.book, s.chefs[c]).orders, OrderCost) == Sum(s.book.orders, OrderCost)
  {
    var k := s.chefs[c];
    var i := Held(k).value;
    HoldsItsOrder(s.book, s.chefs, c);
    hide ChefsInv;
    CookUpdates(s.oven, s.book, k, i);
    var status := if k.Finishes? then 3 else StatusAt(ChefAfter(s.oven, k));
    SumUpdate(s.book.orders, i, s.book.orders[i].(status := status), OrderCost);
  }

  lemma CookCosts(s: State, c: nat, wake: nat)
    requires ChefsInv(s.book, s.chefs) && c < |s.chefs| && !ChefAsleep(s.chefs[c]) && !s.chefs[c].Looking?
    ensures Work(Cook(s, c, wake)) < Work(s)
  {
    var k, l, t := s.chefs[c], ChefAfter(s.oven, s.chefs[c]), Cook(s, c, wake);
    CookOrderCosts(s, c);
    hide ChefsInv;
    StepCosts(s.oven, k);
    SumUpdate(s.chefs, c, l, ChefCost);
    if Signals(k).Some? {
      WakeCosts(s.chefs[c := l], wake, Signals(k).value);
      if t.deliverers != s.deliverers {
        SumUpdate(s.deliverers, wake - |s.chefs|, Waiting, DelivererCost);
      }
    }
  }

  lemma CollectCosts(s: State, d: nat)
    requires RecordsInv(s.book) && d < |s.deliverers| && s.deliverers[d].Waiting? && Collect(s, d) != s
    ensures Work(Collect(s, d)) < Work(s)
  {
    var b, t := s.book, Collect(s, d);
    var taken := Ready(b.orders, 0, MAX_DELIVERY_BAG_CAPACITY);
    ReadyTakes(b.orders);
    hide RecordsInv, Takes;
    if b.numOrders == 0 {
      SumUpdate(s.deliverers, d, Asleep, DelivererCost);
    } else {
      SumUpdate(s.deliverers, d, Carrying(Bag(b.orders, taken)), DelivererCost);
      MarkedCosts(b, taken);
    }
  }

  lemma MarkedCosts(b: Book, taken: seq<nat>)
    requires RecordsInv(b) && Takes(b.orders, taken) && taken != []
    ensures Sum(Marked(b.orders, taken), OrderCost) + 2 <= Sum(b.orders, OrderCost)
  {
    var j := taken[0];
    assert j in taken && RecordOk(b.orders[j], b.first + j);
    SumLowersTo(b.orders, Marked(b.orders, taken), |b.orders|, j, 2, OrderCost);
  }

  lemma {:induction false} DeliverAllCosts(b: Book, d: nat, bag: seq<Order>)
    ensures Sum(DeliverAll(b, d, bag).orders, OrderCost) <= Sum(b.orders, OrderCost)
    decreases |bag|
  {
    if bag != [] {
      var b' := DeliverOne(b, d, bag[0]);
      if |b.orders| > 0 {
        SumLowersTo(b.orders, b'.orders, |b.orders|, 0, 0, OrderCost);
      }
      DeliverAllCosts(b', d, bag[1..]);
    }
  }

  lemma ChangeCosts(s: State, a: Action)
    requires OrdersInv(s) && Change(s, a).Some?
    ensures Work(Do(s, a)) < Work(s)
  {
    hide RecordsInv, ChefsInv, DeliverersInv, CountersInv, Work;
    match a
    case ChefStep(c, wake) =>
      if s.chefs[c].Looking? {
        LookCosts(s, c);
      } else {
        CookCosts(s, c, wake);
      }
    case DelivererStep(d) =>
      if s.deliverers[d].Waiting? {
        CollectCosts(s, d);
      } else {
        BagCosts(s, d);
      }
  }

  lemma BagCosts(s: State, d: nat)
    requires d < |s.deliverers| && s.deliverers[d].Carrying?
    ensures Work(Delivers(s, d)) < Work(s)
  {
    SumUpdate(s.deliverers, d, Waiting, DelivererCost);
    DeliverAllCosts(s.book, d, s.deliverers[d].bag);
  }

  // What a quiet shop looks like.

  lemma SomeSleeper(s: State, k: Chef) returns (wake: nat)
    requires !ChefAsleep(k)
    ensures Wakes(s, k, wake)
  {
    wake := 0;
    if Signals(k).Some? {
      var asleep := Signals(k).value;
      CountZero(s.chefs, asleep);
      CountZero(s.deliverers, DelivererAsleep);
      if c :| 0 <= c < |s.chefs| && asleep(s.chefs[c]) {
        wake := c;
      } else if d :| 0 <= d < |s.deliverers| && k.Finishes? && DelivererAsleep(s.deliverers[d]) {
        wake := |s.chefs| + d;
      }
    }
  }

  lemma QuietChef(s: State, c: nat)
    requires Quiet(s) && c < |s.chefs|
    ensures s.chefs[c].Looking? || ChefAsleep(s.chefs[c])
    ensures s.chefs[c].Looking? ==> s.book.numOrders != 0 && FirstUnclaimed(s.book.orders, 0).None?
  {
    FirstUnclaimedIs(s.book.orders, 0);
    if !ChefAsleep(s.chefs[c]) {
      var wake := SomeSleeper(s, s.chefs[c]);
      assert Change(s, ChefStep(c, wake)).None?;
      if s.chefs[c].Looking? {
        assert Look(s, c).chefs[c] == Looking;
      } else {
        CookMoves(s, c, wake);
      }
    }
  }

  lemma CookMoves(s: State, c: nat, wake: nat)
    requires c < |s.chefs| && !s.chefs[c].Looking? && !ChefAsleep(s.chefs[c])
    ensures Cook(s, c, wake) != s
  {
    var k, l := s.chefs[c], ChefAfter(s.oven, s.chefs[c]);
    assert l != k && (Signals(k).Some? ==> Woken(l) == l);
    assert Cook(s, c, wake).chefs[c] != k;
  }

  lemma QuietDeliverer(s: State, d: nat)
    requires Quiet(s) && d < |s.deliverers|
    ensures s.deliverers[d].Waiting? || s.deliverers[d].Asleep?
    ensures s.deliverers[d].Waiting? ==>
      s.book.numOrders != 0 && forall i :: 0 <= i < |s.book.orders| ==> s.book.orders[i].status != 3
  {
    ReadyTakes(s.book.orders);
    assert Change(s, DelivererStep(d)).None?;
    if s.deliverers[d].Waiting? {
      assert Collect(s, d).deliverers[d] == Waiting;
    } else if s.deliverers[d].Carrying? {
      DeliverMoves(s, d);
    }
  }

  lemma DeliverMoves(s: State, d: nat)
    requires d < |s.deliverers| && s.deliverers[d].Carrying?
    ensures Delivers(s, d) != s
  {
    assert Delivers(s, d).deliverers[d] == Waiting;
  }

  ghost predicate NoneActs(chefs: seq<Chef>) {
    forall c :: 0 <= c < |chefs| ==> chefs[c].Looking? || ChefAsleep(chefs[c])
  }

  lemma QuietPeels(o: Oven, chefs: seq<Chef>)
    requires OvenOk(o, KitchenOf(chefs)) && NoneActs(chefs)
    ensures o.peels == MAX_OVEN_PEELS
    ensures forall c :: 0 <= c < |chefs| ==> !chefs[c].AwaitOven? && !chefs[c].AwaitPeel?
  {
    CountZero(chefs, SleepsOnOven);
    assert forall c :: 0 <= c < |chefs| ==> !SleepsOnOven(chefs[c]);
    CountZero(chefs, HasPeel);
    CountZero(chefs, TriesPeel);
    CountZero(chefs, SleepsOnPeel);
    assert forall c :: 0 <= c < |chefs| ==> !SleepsOnPeel(chefs[c]);
  }

  /** The chefs take a slot before a peel and free it first, yet none is left waiting for either:
      when nobody acts, nobody holds anything. */
  lemma QuietOven(o: Oven, chefs: seq<Chef>)
    requires OvenOk(o, KitchenOf(chefs)) && NoneActs(chefs)
    ensures o == Oven(MAX_OVEN_SLOTS, MAX_OVEN_PEELS, 0)
    ensures forall c :: 0 <= c < |chefs| ==> Held(chefs[c]).None?
  {
    QuietPeels(o, chefs);
    CountZero(chefs, HasSlot);
    CountZero(chefs, TriesSlot);
    CountZero(chefs, SleepsOnSlot);
    assert forall c :: 0 <= c < |chefs| ==> !SleepsOnSlot(chefs[c]);
  }

  /** An order that nobody works on waits for a chef or for a deliverer. */
  lemma IdleOrder(s: State, i: nat)
    requires OrdersInv(s) && i < |s.book.orders| && IsLive(s.book.orders[i])
    requires forall c :: 0 <= c < |s.chefs| ==> Held(s.chefs[c]).None?
    requires forall d :: 0 <= d < |s.deliverers| ==> BagOf(s.deliverers[d]) == []
    ensures Unclaimed(s.book.orders[i]) || s.book.orders[i].status == 3
  {
    var b := s.book;
    assert RecordOk(b.orders[i], b.first + i);
    assert HasChef(b, s.chefs, i) && HasDeliverer(b, s.deliverers, i);
  }

  /** There is somebody to cook and somebody to deliver, or nothing to do. */
  predicate CanServe(s: State) {
    (|s.chefs| > 0 && |s.deliverers| > 0) || s.book.numOrders == 0
  }

  /** When a shop that can serve its orders goes quiet, everything is delivered. */
  lemma QuietWhenServed(s: State)
    requires Inv(s) && Quiet(s) && CanServe(s)
    ensures s.book.numOrders == 0 && s.oven == Oven(MAX_OVEN_SLOTS, MAX_OVEN_PEELS, 0)
    ensures forall c :: 0 <= c < |s.chefs| ==> s.chefs[c].AwaitOrder?
    ensures forall d :: 0 <= d < |s.deliverers| ==> s.deliverers[d].Asleep?
  {
    hide OvenOk, Quiet, RecordsInv, ChefsInv, DeliverersInv;
    forall c | 0 <= c < |s.chefs| ensures s.chefs[c].Looking? || ChefAsleep(s.chefs[c]) {
      QuietChef(s, c);
    }
    QuietOven(s.oven, s.chefs);
    forall c | 0 <= c < |s.chefs|
      ensures s.chefs[c].AwaitOrder? || (s.book.numOrders != 0 && FirstUnclaimed(s.book.orders, 0).None?)
    {
      QuietChef(s, c);
    }
    forall d | 0 <= d < |s.deliverers| ensures BagOf(s.deliverers[d]) == [] {
      QuietDeliverer(s, d);
    }
    CountZero(s.book.orders, IsLive);
    var chef := if |s.chefs| > 0 then s.chefs[0] else Looking;
    if s.book.numOrders > 0 {
      var i :| 0 <= i < |s.book.orders| && IsLive(s.book.orders[i]);
      QuietDeliverer(s, 0);
      IdleOrder(s, i);
      FirstUnclaimedIs(s.book.orders, 0);
      assert false;
    }
    forall d | 0 <= d < |s.deliverers| ensures s.deliverers[d].Asleep? {
      QuietDeliverer(s, d);
    }
  }

  /** How many steps of a run change the state. */
  function Changes(s: State, acts: seq<Action>): nat
    requires Exec(Step, s, acts).Some?
    decreases |acts|
  {
    if acts == [] then 0 else One(Do(s, acts[0]) != s) + Changes(Do(s, acts[0]), acts[1..])
  }

  /** How often a run wakes a thread without a signal. */
  function SpuriousIn(acts: seq<Action>): nat
    decreases |acts|
  {
    if acts == [] then 0 else One(acts[0].SpuriousChef? || acts[0].SpuriousDeliverer?) + SpuriousIn(acts[1..])
  }

  lemma SpuriousCosts(s: State, a: Action)
    requires Enabled(s, a) && (a.SpuriousChef? || a.SpuriousDeliverer?)
    ensures Work(Do(s, a)) <= Work(s) + 1
  {
    match a
    case SpuriousChef(c) => SumUpdate(s.chefs, c, Woken(s.chefs[c]), ChefCost);
    case SpuriousDeliverer(d) => SumUpdate(s.deliverers, d, Waiting, DelivererCost);
  }

  lemma {:induction false} ChangesAreBounded(s: State, acts: seq<Action>)
    requires Inv(s) && Exec(Step, s, acts).Some? && forall a :: a in acts ==> !a.Batch?
    ensures var t := Exec(Step, s, acts).value;
            Inv(t) && Changes(s, acts) + Work(t) <= Work(s) + 2 * SpuriousIn(acts)
            && SameBatch(s.book, t.book)
    decreases |acts|
  {
    hide Inv, Work;
    if acts != [] {
      var a, t := acts[0], Do(s, acts[0]);
      assert a in acts && forall b :: b in acts[1..] ==> b in acts;
      StepKeepsInv(s, a);
      InvHasOrders(s);
      BatchesStay(s, a);
      hide OrdersInv;
      if a.SpuriousChef? || a.SpuriousDeliverer? {
        SpuriousCosts(s, a);
      } else if t != s {
        ChangeCosts(s, a);
      }
      hide Do, Enabled;
      ChangesAreBounded(t, acts[1..]);
    }
  }

  predicate SameBatch(b: Book, b': Book) {
    b'.batches == b.batches && b'.emptyBatches == b.emptyBatches && |b'.orders| == |b.orders|
  }

  lemma BatchesStay(s: State, a: Action)
    requires Enabled(s, a) && !a.Batch?
    ensures SameBatch(s.book, Do(s, a).book)
  {
    if a.DelivererStep? && s.deliverers[a.d].Carrying? {
      DeliverAllBatches(s.book, a.d, s.deliverers[a.d].bag);
    }
  }

  lemma {:induction false} DeliverAllBatches(b: Book, d: nat, bag: seq<Order>)
    ensures SameBatch(b, DeliverAll(b, d, bag))
    decreases |bag|
  {
    if bag != [] {
      DeliverAllBatches(DeliverOne(b, d, bag[0]), d, bag[1..]);
    }
  }

  /** However the threads are scheduled, and however often they look around in vain: all but a
      bounded number of the steps between two batches change nothing, where each wakeup without a
      signal adds two to the bound; and when nothing is left to be done, in a shop that can serve,
      every order is delivered, everything is back in its place, everybody sleeps, and each client
      whose batch had orders has had its one notification. */
  lemma EveryBatchIsServed(chefs: nat, deliverers: nat, s: State, acts: seq<Action>)
    requires Reachable(chefs, deliverers, s)
    requires Exec(Step, s, acts).Some? && forall a :: a in acts ==> !a.Batch?
    ensures Changes(s, acts) <= Work(s) + 2 * SpuriousIn(acts)
    ensures var t := Exec(Step, s, acts).value;
            Quiet(t) && CanServe(t) ==>
              && t.book.numOrders == 0 && t.book.notifications == t.book.batches - t.book.emptyBatches
              && Sum(t.book.totalDelivered, Itself) == t.book.allOrders
              && t.oven == Oven(MAX_OVEN_SLOTS, MAX_OVEN_PEELS, 0)
              && (forall c :: 0 <= c < |t.chefs| ==> t.chefs[c].AwaitOrder?)
              && (forall d :: 0 <= d < |t.deliverers| ==> t.deliverers[d].Asleep?)
  {
    hide Inv, Quiet, Step;
    var t := Exec(Step, s, acts).value;
    ReachableInv(chefs, deliverers, s);
    ChangesAreBounded(s, acts);
    ReachesRun(Step, Init(chefs, deliverers), s, acts);
    ReachableInv(chefs, deliverers, t);
    if Quiet(t) && CanServe(t) {
      QuietWhenServed(t);
      OrdersAreConserved(chefs, deliverers, t);
    }
  }

  /** How the notifications of two states of one shop compare, a batch having come in between. */
  predicate NotifiedOnceMore(b: Book, b': Book, isEmpty: bool) {
    b'.notifications == b.notifications + One(!isEmpty && b'.numOrders == 0)
  }

  lemma BatchNotifies(b: Book, r: Book, t: Book, n: nat)
    requires b.numOrders == 0 && b.notifications == b.batches - b.emptyBatches - One(b.numOrders > 0)
    requires r.batches == b.batches + 1 && r.emptyBatches == b.emptyBatches + One(n == 0) && |r.orders| == n
    requires SameBatch(r, t) && t.numOrders == Count(t.orders, IsLive)
    requires t.notifications == t.batches - t.emptyBatches - One(t.numOrders > 0)
    ensures NotifiedOnceMore(b, t, n == 0)
  {
  }

  /** The client of a batch is notified exactly once if its batch has orders, with the last of
      them, and never if it has none. */
  lemma ClientIsNotifiedIff(
      chefs: nat, deliverers: nat, s: State, before: seq<Order>, incoming: seq<Order>, acts: seq<Action>)
    requires Reachable(chefs, deliverers, s) && Enabled(s, Batch(before, incoming))
    requires Exec(Step, Do(s, Batch(before, incoming)), acts).Some? && forall a :: a in acts ==> !a.Batch?
    ensures var t := Exec(Step, Do(s, Batch(before, incoming)), acts).value;
            && NotifiedOnceMore(s.book, t.book, incoming == [])
            && (Quiet(t) && chefs > 0 && deliverers > 0 ==>
                  (t.book.notifications > s.book.notifications <==> incoming != []))
  {
    hide Inv, Quiet, Arrive, Changes, Work, SameBatch, NotifiedOnceMore;
    var a := Batch(before, incoming);
    var r := Do(s, a);
    var t := Exec(Step, r, acts).value;
    assert Step(s, a) == Some(r) && r == Arrive(s, before, incoming) && s.book.numOrders == 0;
    hide Step, Do, Enabled;
    ReachesStep(Step, Init(chefs, deliverers), s, a);
    ReachesRun(Step, Init(chefs, deliverers), r, acts);
    ReachableInv(chefs, deliverers, r);
    ReachableInv(chefs, deliverers, t);
    OrdersAreConserved(chefs, deliverers, s);
    OrdersAreConserved(chefs, deliverers, t);
    ChangesAreBounded(r, acts);
    ArriveBatches(s, before, incoming);
    BatchNotifies(s.book, r.book, t.book, |incoming|);
    if Quiet(t) && chefs > 0 && deliverers > 0 {
      EveryBatchIsServed(chefs, deliverers, r, acts);
      NotifiedIs(s.book, t.book, incoming == []);
    }
  }

  lemma NotifiedIs(b: Book, b': Book, isEmpty: bool)
    requires NotifiedOnceMore(b, b', isEmpty) && b'.numOrders == 0
    ensures b'.notifications > b.notifications <==> !isEmpty
  {
  }

  lemma ArriveBatches(s: State, before: seq<Order>, incoming: seq<Order>)
    requires |before| == |incoming|
    ensures var b, b' := s.book, Arrive(s, before, incoming).book;
            b'.batches == b.batches + 1 && b'.emptyBatches == b.emptyBatches + One(incoming == [])
            && |b'.orders| == |incoming|
  {
  }

  // Exactly when a shop serves.

  /** Nobody delivers; or nobody cooks, so no order is ever ready. */
  ghost predicate Unserved(s: State) {
    || |s.deliverers| == 0
    || (|s.chefs| == 0
        && (forall i :: 0 <= i < |s.book.orders| ==> s.book.orders[i].status != 3)
        && (forall d :: 0 <= d < |s.deliverers| ==> BagOf(s.deliverers[d]) == []))
  }

  lemma StepServesNobody(s: State, a: Action)
    requires Unserved(s) && Enabled(s, a) && !a.Batch?
    ensures Unserved(Do(s, a)) && Do(s, a).book.numOrders == s.book.numOrders
  {
    match a
    case ChefStep(c, wake) =>
      if s.chefs[c].Looking? {
        FirstUnclaimedIs(s.book.orders, 0);
      }
    case DelivererStep(d) =>
      ReadyTakes(s.book.orders);
      assert BagOf(s.deliverers[d]) == [];
    case SpuriousChef(_) =>
    case SpuriousDeliverer(_) =>
  }

  lemma {:induction false} RunServesNobody(s: State, acts: seq<Action>)
    requires Unserved(s) && Exec(Step, s, acts).Some? && forall a :: a in acts ==> !a.Batch?
    ensures Exec(Step, s, acts).value.book.numOrders == s.book.numOrders
    decreases |acts|
  {
    if acts != [] {
      assert acts[0] in acts;
      StepServesNobody(s, acts[0]);
      hide Unserved;
      RunServesNobody(Do(s, acts[0]), acts[1..]);
    }
  }

  /** Left to itself, the shop comes to rest. */
  lemma {:induction false} ComesToRest(s: State) returns (acts: seq<Action>)
    requires Inv(s)
    ensures Exec(Step, s, acts).Some? && Quiet(Exec(Step, s, acts).value)
    ensures forall a :: a in acts ==> !a.Batch?
    decreases Work(s)
  {
    if Quiet(s) {
      acts := [];
    } else {
      var a :| Change(s, a).Some?;
      InvHasOrders(s);
      ChangeCosts(s, a);
      StepKeepsInv(s, a);
      hide Inv, Quiet, Work, Do, Enabled;
      var more := ComesToRest(Do(s, a));
      ExecCons(Step, s, a, Do(s, a), more);
      acts := [a] + more;
    }
  }

  /** In an empty shop that lacks chefs or deliverers, a new batch stays where it is. */
  lemma ArriveUnserved(s: State, before: seq<Order>, incoming: seq<Order>)
    requires Inv(s) && Enabled(s, Batch(before, incoming)) && (|s.chefs| == 0 || |s.deliverers| == 0)
    ensures var t := Arrive(s, before, incoming); Unserved(t) && t.book.numOrders == |incoming|
  {
    hide OvenInv;
    NewBatch(s, before, incoming);
    ShopIsEmpty(s);
    hide Stored, RecordsInv, ChefsInv, DeliverersInv, CountersInv;
    var t := Arrive(s, before, incoming);
    forall d | 0 <= d < |t.deliverers| ensures BagOf(t.deliverers[d]) == [] {
      assert BagOf(s.deliverers[d]) == [];
    }
  }

  /** The program does not look at the sizes of its pools.  A batch of orders is served, whenever
      the shop has come to rest, if and only if there are both a chef and a deliverer. */
  lemma BatchIsServedIff(chefs: nat, deliverers: nat, s: State, before: seq<Order>, incoming: seq<Order>)
    requires Reachable(chefs, deliverers, s) && Enabled(s, Batch(before, incoming)) && incoming != []
    ensures (forall acts ::
               Exec(Step, Arrive(s, before, incoming), acts).Some? && (forall a: Action :: a in acts ==> !a.Batch?) ==>
                 var t := Exec(Step, Arrive(s, before, incoming), acts).value;
                 Quiet(t) ==> t.book.numOrders == 0)
            <==> chefs > 0 && deliverers > 0
  {
    hide Inv, Quiet, Unserved, Arrive, Work;
    var r := Arrive(s, before, incoming);
    ReachesStep(Step, Init(chefs, deliverers), s, Batch(before, incoming));
    ReachableInv(chefs, deliverers, s);
    ReachableInv(chefs, deliverers, r);
    if chefs > 0 && deliverers > 0 {
      forall acts | Exec(Step, r, acts).Some? && forall a: Action :: a in acts ==> !a.Batch?
        ensures var t := Exec(Step, r, acts).value; Quiet(t) ==> t.book.numOrders == 0
      {
        var t := Exec(Step, r, acts).value;
        ReachesRun(Step, Init(chefs, deliverers), r, acts);
        ReachableInv(chefs, deliverers, t);
        EveryBatchIsServed(chefs, deliverers, r, acts);
      }
    } else {
      ArriveUnserved(s, before, incoming);
      var acts := ComesToRest(r);
      RunServesNobody(r, acts);
      assert Exec(Step, r, acts).value.book.numOrders != 0;
    }
  }

  lemma InvHasOrders(s: State)
    requires Inv(s)
    ensures OrdersInv(s)
  {
  }
}
