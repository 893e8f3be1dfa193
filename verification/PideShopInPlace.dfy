// The shop of FinalProject/PideShop.c as the program has it: global counters and an array of
// records, changed in place.  Every critical section is proved to do what the step of the state
// machine in PideShop says.

module PideShopInPlace {
  import opened Counting
  import opened PideShop

  /** What lines 222-229 have done when they come to index `i`. */
  ghost predicate Filled(was: seq<Order>, taken: seq<nat>, i: nat, bag: seq<Order>, now: seq<Order>) {
    && i <= |was| && |taken| <= MAX_DELIVERY_BAG_CAPACITY && (forall k :: 0 <= k < |taken| ==> taken[k] < i)
    && |bag| == |taken| && bag == Bag(was, taken) && now == Marked(was, taken)
    && Ready(was, 0, MAX_DELIVERY_BAG_CAPACITY) == taken + Ready(was, i, MAX_DELIVERY_BAG_CAPACITY - |taken|)
  }

  lemma FillStarts(was: seq<Order>)
    ensures Filled(was, [], 0, [], was)
  {
  }

  lemma FillTakes(was: seq<Order>, taken: seq<nat>, i: nat, bag: seq<Order>, now: seq<Order>)
    requires Filled(was, taken, i, bag, now) && i < |was| && |taken| < MAX_DELIVERY_BAG_CAPACITY && was[i].status == 3
    ensures var o := was[i].(status := 4); Filled(was, taken + [i], i + 1, bag + [o], now[i := o])
  {
    var o, room := was[i].(status := 4), MAX_DELIVERY_BAG_CAPACITY - |taken|;
    forall j | 0 <= j < |was| ensures j in taken + [i] <==> j in taken || j == i {
    }
    assert Marked(was, taken + [i]) == now[i := o];
    assert Bag(was, taken + [i]) == bag + [o];
    assert taken + ([i] + Ready(was, i + 1, room - 1)) == (taken + [i]) + Ready(was, i + 1, room - 1);
  }

  lemma FillSkips(was: seq<Order>, taken: seq<nat>, i: nat, bag: seq<Order>, now: seq<Order>)
    requires Filled(was, taken, i, bag, now) && i < |was| && |taken| < MAX_DELIVERY_BAG_CAPACITY && was[i].status != 3
    ensures Filled(was, taken, i + 1, bag, now)
  {
  }

  lemma FillMeets(was: seq<Order>, taken: seq<nat>, i: nat, bag: seq<Order>, now: seq<Order>)
    requires Filled(was, taken, i, bag, now)
    ensures |now| == |was| && |bag| == |taken| && i <= |was| && (i < |was| ==> now[i] == was[i])
  {
  }

  lemma FillEnds(was: seq<Order>, taken: seq<nat>, i: nat, bag: seq<Order>, now: seq<Order>)
    requires Filled(was, taken, i, bag, now) && (i == |was| || |taken| == MAX_DELIVERY_BAG_CAPACITY)
    ensures taken == Ready(was, 0, MAX_DELIVERY_BAG_CAPACITY) && Takes(was, taken)
    ensures bag == Bag(was, taken) && now == Marked(was, taken)
  {
    assert taken + [] == taken;
    ReadyTakes(was);
  }

  class Shop {
    var ordersArray: array<Order>
    var ovenSlots: int
    var ovenPeels: int
    var ovenCapacity: int
    var numOrders: int
    var allOrders: nat
    var deliveredOrders: int
    var totalDelivered: seq<nat>
    var notificationsSent: nat
    var chefsAt: seq<Chef>
    var deliverersAt: seq<Deliverer>
    ghost var firstOfBatch: nat
    ghost var batchesTaken: nat
    ghost var emptyBatchesTaken: nat
    ghost var cookOf: map<nat, nat>
    ghost var carrierOf: map<nat, nat>

    ghost function OvenView(): Oven
      reads this
    {
      Oven(ovenSlots, ovenPeels, ovenCapacity)
    }

    ghost function BookView(): Book
      reads this, ordersArray
    {
      Book(ordersArray[..], numOrders, allOrders, deliveredOrders, totalDelivered, notificationsSent,
           firstOfBatch, batchesTaken, emptyBatchesTaken, cookOf, carrierOf)
    }

    ghost function View(): State
      reads this, ordersArray
    {
      State(OvenView(), BookView(), chefsAt, deliverersAt)
    }

    constructor (chefPoolSize: nat, delivererPoolSize: nat)
      ensures View() == Init(chefPoolSize, delivererPoolSize) && fresh(ordersArray)
    {
      ordersArray := new Order[0];
      ovenSlots, ovenPeels, ovenCapacity := MAX_OVEN_SLOTS, MAX_OVEN_PEELS, 0;
      numOrders, allOrders, deliveredOrders, notificationsSent := 0, 0, 0, 0;
      totalDelivered := seq(delivererPoolSize, _ => 0);
      chefsAt, deliverersAt := seq(chefPoolSize, _ => Looking), seq(delivererPoolSize, _ => Waiting);
      firstOfBatch, batchesTaken, emptyBatchesTaken, cookOf, carrierOf := 0, 0, 0, map[], map[];
    }

    // ------------------------------------------------------------------------- the chefs

    /** Lines 134-142: marks the first order that nobody has claimed. */
    method ClaimOrder() returns (orderIndex: int)
      modifies ordersArray
      ensures match FirstUnclaimed(old(ordersArray[..]), 0)
              case None => orderIndex == -1 && ordersArray[..] == old(ordersArray[..])
              case Some(i) =>
                orderIndex == i < ordersArray.Length
                && ordersArray[..] == old(ordersArray[..])[i := old(ordersArray[..])[i].(status := 1, isPlaced := 1)]
    {
      orderIndex := -1;
      var i := 0;
      while i < ordersArray.Length
        invariant 0 <= i <= ordersArray.Length && ordersArray[..] == old(ordersArray[..])
        invariant FirstUnclaimed(ordersArray[..], 0) == FirstUnclaimed(ordersArray[..], i)
      {
        var o := ordersArray[i];
        if o.status == 0 && o.isPlaced == 0 && o.send == 1 {
          orderIndex := i;
          ordersArray[i] := o.(status := 1, isPlaced := 1);
          return;
        }
        i := i + 1;
      }
    }

    /** Lines 130-143, by chef `c`. */
    method LookForOrder(c: nat)
      requires c < |chefsAt| && chefsAt[c].Looking?
      modifies this`chefsAt, this`cookOf, ordersArray
      ensures View() == Look(old(View()), c)
    {
      if numOrders == 0 {
        chefsAt := chefsAt[c := AwaitOrder];
      } else {
        var orderIndex := ClaimOrder();
        if orderIndex != -1 {
          chefsAt := chefsAt[c := WantsSlot(orderIndex)];
          cookOf := cookOf[orderIndex := c];
        }
      }
    }

    /** `pthread_cond_signal`; the scheduler picks `wake` among the sleepers. */
    method SignalChef(asleep: Chef -> bool, wake: nat)
      modifies this`chefsAt
      ensures chefsAt == WakeOne(old(chefsAt), wake, asleep)
    {
      if wake < |chefsAt| && asleep(chefsAt[wake]) {
        chefsAt := chefsAt[wake := Woken(chefsAt[wake])];
      }
    }

    /** Lines 152-158. */
    method TakeSlot(c: nat, wake: nat)
      requires c < |chefsAt| && chefsAt[c].WantsSlot?
      modifies this`ovenSlots, this`chefsAt
      ensures View() == Cook(old(View()), c, wake)
    {
      var i := chefsAt[c].i;
      if ovenSlots <= 0 {
        chefsAt := chefsAt[c := AwaitSlot(i)];
      } else {
        ovenSlots := ovenSlots - 1;
        chefsAt := chefsAt[c := WantsPeel(i)];
      }
    }

    /** Lines 160-166. */
    method TakePeel(c: nat, wake: nat)
      requires c < |chefsAt| && chefsAt[c].WantsPeel?
      modifies this`ovenPeels, this`chefsAt
      ensures View() == Cook(old(View()), c, wake)
    {
      var i := chefsAt[c].i;
      if ovenPeels <= 0 {
        chefsAt := chefsAt[c := AwaitPeel(i)];
      } else {
        ovenPeels := ovenPeels - 1;
        chefsAt := chefsAt[c := WantsOven(i)];
      }
    }

    /** Lines 168-175. */
    method PlaceInOven(c: nat, wake: nat)
      requires c < |chefsAt| && chefsAt[c].WantsOven? && chefsAt[c].i < ordersArray.Length
      modifies this`ovenCapacity, this`chefsAt, ordersArray
      ensures View() == Cook(old(View()), c, wake)
    {
      var i := chefsAt[c].i;
      if ovenCapacity >= MAX_OVEN_CAPACITY {
        chefsAt := chefsAt[c := AwaitOven(i)];
      } else {
        ovenCapacity := ovenCapacity + 1;
        ordersArray[i] := ordersArray[i].(status := 2);
        chefsAt := chefsAt[c := Cooking(i)];
      }
    }

    /** Lines 184-187. */
    method TakeOutOfOven(c: nat, wake: nat)
      requires c < |chefsAt| && chefsAt[c].Cooking?
      modifies this`ovenCapacity, this`chefsAt
      ensures View() == Cook(old(View()), c, wake)
    {
      ovenCapacity := ovenCapacity - 1;
      chefsAt := chefsAt[c := FreesSlot(chefsAt[c].i)];
      SignalChef(SleepsOnOven, wake);
    }

    /** Lines 190-193. */
    method FreeSlot(c: nat, wake: nat)
      requires c < |chefsAt| && chefsAt[c].FreesSlot?
      modifies this`ovenSlots, this`chefsAt
      ensures View() == Cook(old(View()), c, wake)
    {
      ovenSlots := ovenSlots + 1;
      chefsAt := chefsAt[c := FreesPeel(chefsAt[c].i)];
      SignalChef(SleepsOnSlot, wake);
    }

    /** Lines 196-199. */
    method FreePeel(c: nat, wake: nat)
      requires c < |chefsAt| && chefsAt[c].FreesPeel?
      modifies this`ovenPeels, this`chefsAt
      ensures View() == Cook(old(View()), c, wake)
    {
      ovenPeels := ovenPeels + 1;
      chefsAt := chefsAt[c := Finishes(chefsAt[c].i)];
      SignalChef(SleepsOnPeel, wake);
    }

    /** Lines 202-205. */
    method FinishOrder(c: nat, wake: nat)
      requires c < |chefsAt| && chefsAt[c].Finishes? && chefsAt[c].i < ordersArray.Length
      modifies this`chefsAt, this`deliverersAt, ordersArray
      ensures View() == Cook(old(View()), c, wake)
    {
      var i := chefsAt[c].i;
      ordersArray[i] := ordersArray[i].(status := 3);
      chefsAt := chefsAt[c := Looking];
      SignalChef(SleepsOnOrder, wake);
      if |chefsAt| <= wake < |chefsAt| + |deliverersAt| && deliverersAt[wake - |chefsAt|].Asleep? {
        deliverersAt := deliverersAt[wake - |chefsAt| := Waiting];
      }
    }

    // -------------------------------------------------------------------- the deliverers

    /** Lines 222-229: the first orders that are ready go into the bag and are marked. */
    method FillBag() returns (bag: seq<Order>, ghost taken: seq<nat>)
      modifies ordersArray
      ensures Takes(old(ordersArray[..]), taken)
      ensures taken == Ready(old(ordersArray[..]), 0, MAX_DELIVERY_BAG_CAPACITY)
      ensures bag == Bag(old(ordersArray[..]), taken) && ordersArray[..] == Marked(old(ordersArray[..]), taken)
    {
      hide Filled, Ready, Marked, Bag, Takes;
      ghost var was := ordersArray[..];
      FillStarts(was);
      bag, taken := [], [];
      var i := 0;
      while i < ordersArray.Length && |bag| < MAX_DELIVERY_BAG_CAPACITY
        invariant Filled(was, taken, i, bag, ordersArray[..])
        invariant i <= |was| == ordersArray.Length && |bag| == |taken| <= MAX_DELIVERY_BAG_CAPACITY
      {
        FillMeets(was, taken, i, bag, ordersArray[..]);
        if ordersArray[i].status == 3 {
          FillTakes(was, taken, i, bag, ordersArray[..]);
          ordersArray[i] := ordersArray[i].(status := 4);
          bag := bag + [ordersArray[i]];
          taken := taken + [i];
        } else {
          FillSkips(was, taken, i, bag, ordersArray[..]);
        }
        i := i + 1;
      }
      FillEnds(was, taken, i, bag, ordersArray[..]);
    }

    /** Lines 218-230, by deliverer `d`. */
    method CollectOrders(d: nat)
      requires d < |deliverersAt| && deliverersAt[d].Waiting?
      modifies this`deliverersAt, this`carrierOf, ordersArray
      ensures View() == Collect(old(View()), d)
    {
      if numOrders == 0 {
        deliverersAt := deliverersAt[d := Asleep];
      } else {
        ghost var b := BookView();
        ghost var taken;
        var bag;
        bag, taken := FillBag();
        if bag != [] {
          deliverersAt := deliverersAt[d := Carrying(bag)];
          carrierOf := map i | i in b.carrier.Keys + (set j | j in taken) :: if i in taken then d else b.carrier[i];
        }
      }
    }

    /** Lines 258-262 and 273-277. */
    method ClearRecords(id: int)
      modifies ordersArray
      ensures ordersArray[..] == ClearById(old(ordersArray[..]), id)
    {
      ghost var was := ordersArray[..];
      var i := 0;
      while i < ordersArray.Length
        invariant 0 <= i <= ordersArray.Length
        invariant forall j :: 0 <= j < ordersArray.Length ==>
          ordersArray[j] == if j < i && was[j].id == id then was[j].(status := 5) else was[j]
      {
        if ordersArray[i].id == id {
          ordersArray[i] := ordersArray[i].(status := 5);
        }
        i := i + 1;
      }
      i := 0;
      while i < ordersArray.Length
        invariant 0 <= i <= ordersArray.Length
        invariant forall j :: 0 <= j < i ==> ordersArray[j] == if was[j].id == id then CLEARED else was[j]
        invariant forall j :: i <= j < ordersArray.Length ==>
          ordersArray[j].id == was[j].id && (was[j].id != id ==> ordersArray[j] == was[j])
      {
        if ordersArray[i].id == id {
          ordersArray[i] := CLEARED;
        }
        i := i + 1;
      }
    }

    /** `sendNotification`, without the message. */
    method SendNotification()
      modifies this`deliveredOrders, this`notificationsSent
      ensures deliveredOrders == 0 && notificationsSent == old(notificationsSent) + 1
    {
      deliveredOrders := 0;
      notificationsSent := notificationsSent + 1;
    }

    /** Lines 258-282: one turn of the loop, for order `o`. */
    method DeliverOrder(d: nat, o: Order)
      requires d < |totalDelivered|
      modifies this`numOrders, this`totalDelivered, this`deliveredOrders, this`notificationsSent, ordersArray
      ensures BookView() == DeliverOne(old(BookView()), d, o)
    {
      ClearRecords(o.id);
      numOrders := numOrders - 1;
      totalDelivered := totalDelivered[d := totalDelivered[d] + 1];
      deliveredOrders := deliveredOrders + 1;
      if deliveredOrders == ordersArray.Length {
        SendNotification();
      }
    }

    /** Lines 255-287. */
    method DeliverBag(d: nat)
      requires d < |deliverersAt| && deliverersAt[d].Carrying? && |totalDelivered| == |deliverersAt|
      modifies this`numOrders, this`totalDelivered, this`deliveredOrders, this`notificationsSent,
               this`deliverersAt, ordersArray
      ensures View() == Delivers(old(View()), d)
    {
      var bag := deliverersAt[d].bag;
      ghost var b := BookView();
      var j := 0;
      while j < |bag|
        invariant 0 <= j <= |bag| && |totalDelivered| == |deliverersAt| && deliverersAt == old(deliverersAt)
        invariant DeliverAll(b, d, bag) == DeliverAll(BookView(), d, bag[j..])
      {
        DeliverOrder(d, bag[j]);
        assert bag[j..][1..] == bag[j + 1..];
        j := j + 1;
      }
      deliverersAt := deliverersAt[d := Waiting];
    }

    // ------------------------------------------------------------------------ the batches

    /** Lines 413-421. */
    method StoreOrders(orders: seq<Order>)
      requires |orders| == ordersArray.Length
      modifies this`numOrders, this`allOrders, ordersArray
      ensures allOrders == old(allOrders) + Count(orders, HasStatus0)
      ensures numOrders == old(numOrders) + Count(orders, HasStatus0)
      ensures ordersArray[..] == Stored(old(ordersArray[..]), orders, old(allOrders))
    {
      ghost var was := ordersArray[..];
      var i := 0;
      while i < |orders|
        invariant 0 <= i <= |orders|
        invariant allOrders == old(allOrders) + CountTo(orders, i, HasStatus0)
        invariant numOrders == old(numOrders) + CountTo(orders, i, HasStatus0)
        invariant forall j :: 0 <= j < |orders| ==>
          ordersArray[j] == if j < i then Stored(was, orders, old(allOrders))[j] else was[j]
      {
        if orders[i].status == 0 {
          ordersArray[i] := orders[i].(send := 1, id := allOrders);
          allOrders := allOrders + 1;
          numOrders := numOrders + 1;
        }
        i := i + 1;
      }
    }

    /** Lines 392-400: what a new array holds is not known. */
    method Resize(newMaxOrder: nat)
      modifies this`ordersArray
      ensures ordersArray.Length == newMaxOrder
      ensures if newMaxOrder == old(ordersArray.Length) then ordersArray == old(ordersArray) else fresh(ordersArray)
    {
      if newMaxOrder != ordersArray.Length {
        ordersArray := new Order[newMaxOrder];
      }
    }

    /** Lines 423-424. */
    method Announce(ghost firstId: nat, ghost isEmpty: bool)
      modifies this`firstOfBatch, this`batchesTaken, this`emptyBatchesTaken, this`cookOf, this`carrierOf,
               this`chefsAt, this`deliverersAt
      ensures BookView() == old(BookView()).(
                first := firstId, batches := old(batchesTaken) + 1,
                emptyBatches := old(emptyBatchesTaken) + One(isEmpty), cook := map[], carrier := map[])
      ensures chefsAt == WakeChefs(old(chefsAt)) && deliverersAt == WakeDeliverers(old(deliverersAt))
    {
      hide WakeChefs, WakeDeliverers;
      firstOfBatch, batchesTaken, cookOf, carrierOf := firstId, batchesTaken + 1, map[], map[];
      emptyBatchesTaken := emptyBatchesTaken + One(isEmpty);
      chefsAt, deliverersAt := WakeChefs(chefsAt), WakeDeliverers(deliverersAt);
    }

    /** Lines 392-427: `max_order` changes only with the size of the batch. */
    method TakeBatch(orders: seq<Order>) returns (ghost before: seq<Order>)
      modifies this, ordersArray
      ensures ArrayHolds(old(BookView()), before, orders)
      ensures View() == Arrive(old(View()), before, orders)
    {
      hide WakeChefs, WakeDeliverers, Stored, Count;
      Resize(|orders|);
      before := ordersArray[..];
      ghost var id := allOrders;
      StoreOrders(orders);
      Announce(id, orders == []);
    }
  }
}
