// The parking lot of Homework3/hw3.c as the program has it: global arrays, indices, counters and
// semaphores, changed in place.  Every step is proved to do what the state machine in Parking
// says.

module ParkingInPlace {
  import opened Parking
  import opened Runs

  /** Lines 133-140 or 161-168: the vehicle goes into the first slot that is empty. */
  method ParkInFirstFree(parking: array<Option<Vehicle>>, vehicle: Option<Vehicle>, free: int) returns (left: int)
    modifies parking
    ensures Lot(parking[..], left) == Parked(Lot(old(parking[..]), free), vehicle)
  {
    left := free;
    var i := 0;
    while i < parking.Length
      invariant 0 <= i <= parking.Length && left == free && parking[..] == old(parking[..])
      invariant FirstFree(parking[..], 0) == FirstFree(parking[..], i)
    {
      if parking[i] == None {
        parking[i] := vehicle;
        left := left - 1;
        return;
      }
      i := i + 1;
    }
  }

  /** Lines 92-99 or 104-111: every vehicle that has stood its time is freed. */
  method RemoveExpired(parking: array<Option<Vehicle>>, now: int, free: int) returns (left: int, removed: seq<Vehicle>)
    modifies parking
    ensures parking[..] == Swept(old(parking[..]), now)
    ensures removed == Leaving(old(parking[..]), parking.Length, now) && left == free + |removed|
  {
    ghost var was := parking[..];
    left, removed := free, [];
    var i := 0;
    while i < parking.Length
      invariant 0 <= i <= parking.Length == |was|
      invariant forall j :: 0 <= j < parking.Length ==>
        parking[j] == if j < i && IsExpired(was[j], now) then None else was[j]
      invariant removed == Leaving(was, i, now) && left == free + |removed|
    {
      if parking[i] != None && now - parking[i].value.arrival >= PARK_DURATION {
        removed := removed + [parking[i].value];
        parking[i] := None;
        left := left + 1;
      }
      i := i + 1;
    }
  }

  class ParkingLot {
    const vehicleQueue: array<Option<Vehicle>>
    const pickupParking: array<Option<Vehicle>>
    const automobileParking: array<Option<Vehicle>>
    var queueFront: nat
    var queueRear: nat
    var freeSlot: nat
    var arrivalLockFree: bool
    var pickupSems: Sems
    var automobileSems: Sems
    var mFreePickup: int
    var mFreeAutomobile: int
    var nextVehicleId: nat
    var ownersAt: seq<Owner>
    var attendantsAt: seq<Attendant>
    ghost var issuedSoFar: seq<Vehicle>
    ghost var departedSoFar: seq<Vehicle>
    ghost var refusedSoFar: seq<Vehicle>

    ghost predicate Valid()
      reads this
    {
      && vehicleQueue.Length == QUEUE_CAPACITY && queueFront < QUEUE_CAPACITY && queueRear < QUEUE_CAPACITY
      && vehicleQueue != pickupParking && vehicleQueue != automobileParking && pickupParking != automobileParking
    }

    ghost function GateView(): Gate
      reads this, vehicleQueue
    {
      Gate(arrivalLockFree, freeSlot, vehicleQueue[..], queueFront, queueRear, pickupSems, automobileSems)
    }

    ghost function ParkView(): Park
      reads this, pickupParking, automobileParking
    {
      Park(Lot(pickupParking[..], mFreePickup), Lot(automobileParking[..], mFreeAutomobile),
           departedSoFar, refusedSoFar)
    }

    ghost function View(): State
      reads this, vehicleQueue, pickupParking, automobileParking
    {
      State(GateView(), ParkView(), nextVehicleId, ownersAt, attendantsAt, issuedSoFar)
    }

    constructor (owners: nat, kinds: seq<Kind>)
      ensures Valid() && View() == Init(owners, kinds)
    {
      vehicleQueue := new Option<Vehicle>[QUEUE_CAPACITY](_ => None);
      pickupParking := new Option<Vehicle>[PICKUP_CAPACITY](_ => None);
      automobileParking := new Option<Vehicle>[AUTOMOBILE_CAPACITY](_ => None);
      queueFront, queueRear, freeSlot, arrivalLockFree := 0, 0, QUEUE_CAPACITY, true;
      pickupSems, automobileSems := IDLE, IDLE;
      mFreePickup, mFreeAutomobile, nextVehicleId := PICKUP_CAPACITY, AUTOMOBILE_CAPACITY, 1;
      ownersAt := seq(owners, _ => Away);
      attendantsAt := seq(|kinds|, a requires 0 <= a < |kinds| => Attendant(kinds[a], AwaitsNew));
      issuedSoFar, departedSoFar, refusedSoFar := [], [], [];
    }

    // ------------------------------------------------------------------------ car owners

    /** Lines 57-64. */
    method VehicleArrives(p: nat, vehicleType: Kind, now: int)
      requires Enabled(View(), Arrive(p, vehicleType, now))
      modifies this`arrivalLockFree, this`nextVehicleId, this`ownersAt, this`issuedSoFar
      ensures View() == Do(old(View()), Arrive(p, vehicleType, now))
    {
      arrivalLockFree := false;
      var vehicle := Vehicle(nextVehicleId, vehicleType, now);
      nextVehicleId := nextVehicleId + 1;
      ownersAt := ownersAt[p := WaitsSlot(vehicle)];
      issuedSoFar := issuedSoFar + [vehicle];
    }

    /** Line 66. */
    method WaitFreeSlot(p: nat)
      requires Enabled(View(), OwnerStep(p)) && ownersAt[p].WaitsSlot?
      modifies this`freeSlot, this`ownersAt
      ensures View() == Do(old(View()), OwnerStep(p))
    {
      freeSlot := freeSlot - 1;
      ownersAt := ownersAt[p := PutsIn(ownersAt[p].v)];
    }

    /** Lines 67-70. */
    method PutInQueue(p: nat)
      requires Valid() && Enabled(View(), OwnerStep(p)) && ownersAt[p].PutsIn?
      modifies this`queueRear, this`ownersAt, vehicleQueue
      ensures Valid() && View() == Do(old(View()), OwnerStep(p))
    {
      var vehicle := ownersAt[p].v;
      vehicleQueue[queueRear] := Some(vehicle);
      queueRear := (queueRear + 1) % QUEUE_CAPACITY;
      ownersAt := ownersAt[p := Posts(vehicle)];
    }

    /** Lines 74 and 78. */
    method PostNew(p: nat)
      requires Enabled(View(), OwnerStep(p)) && ownersAt[p].Posts?
      modifies this`pickupSems, this`automobileSems, this`ownersAt
      ensures View() == Do(old(View()), OwnerStep(p))
    {
      var vehicle := ownersAt[p].v;
      if vehicle.kind.Pickup? {
        pickupSems := pickupSems.(arrived := pickupSems.arrived + 1);
      } else {
        automobileSems := automobileSems.(arrived := automobileSems.arrived + 1);
      }
      ownersAt := ownersAt[p := WaitsDone(vehicle)];
    }

    /** Lines 75 and 79. */
    method WaitDone(p: nat)
      requires Enabled(View(), OwnerStep(p)) && ownersAt[p].WaitsDone?
      modifies this`pickupSems, this`automobileSems, this`ownersAt
      ensures View() == Do(old(View()), OwnerStep(p))
    {
      if ownersAt[p].v.kind.Pickup? {
        pickupSems := pickupSems.(done := pickupSems.done - 1);
      } else {
        automobileSems := automobileSems.(done := automobileSems.done - 1);
      }
      ownersAt := ownersAt[p := Unlocks];
    }

    /** Line 82. */
    method LetOthersArrive(p: nat)
      requires Enabled(View(), OwnerStep(p)) && ownersAt[p].Unlocks?
      modifies this`arrivalLockFree, this`ownersAt
      ensures View() == Do(old(View()), OwnerStep(p))
    {
      arrivalLockFree := true;
      ownersAt := ownersAt[p := Away];
    }

    // ------------------------------------------------------------------------ attendants

    /** The semaphore operations of lines 122, 123, 147 and 148, and of lines 150, 151, 175
        and 176. */
    method SemaphoreStep(a: nat, now: int)
      requires Enabled(View(), AttendantStep(a, now))
      requires var at := attendantsAt[a].at; at.AwaitsNew? || at.AwaitsCharge? || at.PostsCharge? || at.PostsDone?
      modifies this`pickupSems, this`automobileSems, this`attendantsAt
      ensures View() == Do(old(View()), AttendantStep(a, now))
    {
      var Attendant(vehicleType, at) := attendantsAt[a];
      var sems := if vehicleType.Pickup? then pickupSems else automobileSems;
      var next := at;
      match at {
        case AwaitsNew => sems, next := sems.(arrived := sems.arrived - 1), AwaitsCharge;
        case AwaitsCharge => sems, next := sems.(inCharge := sems.inCharge - 1), TakesOut;
        case PostsCharge => sems, next := sems.(inCharge := sems.inCharge + 1), PostsDone;
        case PostsDone => sems, next := sems.(done := sems.done + 1), SweepsPickups;
      }
      if vehicleType.Pickup? {
        pickupSems := sems;
      } else {
        automobileSems := sems;
      }
      attendantsAt := attendantsAt[a := Attendant(vehicleType, next)];
    }

    /** Lines 125-128 or 153-156. */
    method TakeFromQueue(a: nat, now: int)
      requires Valid() && Enabled(View(), AttendantStep(a, now)) && attendantsAt[a].at.TakesOut?
      modifies this`queueFront, this`attendantsAt
      ensures Valid() && View() == Do(old(View()), AttendantStep(a, now))
    {
      var vehicle := vehicleQueue[queueFront];
      queueFront := (queueFront + 1) % QUEUE_CAPACITY;
      attendantsAt := attendantsAt[a := attendantsAt[a].(at := PostsFree(vehicle))];
    }

    /** Line 129 or 157. */
    method PostFreeSlot(a: nat, now: int)
      requires Enabled(View(), AttendantStep(a, now)) && attendantsAt[a].at.PostsFree?
      modifies this`freeSlot, this`attendantsAt
      ensures View() == Do(old(View()), AttendantStep(a, now))
    {
      freeSlot := freeSlot + 1;
      attendantsAt := attendantsAt[a := attendantsAt[a].(at := Parks(attendantsAt[a].at.v))];
    }

    /** Lines 132-144 or 160-172. */
    method ParkVehicle(vehicleType: Kind, vehicle: Option<Vehicle>)
      requires Valid()
      modifies this`mFreePickup, this`mFreeAutomobile, this`refusedSoFar, pickupParking, automobileParking
      ensures ParkView() == ParkOrRefuse(old(ParkView()), vehicleType, vehicle)
    {
      if vehicleType.Pickup? && mFreePickup > 0 {
        mFreePickup := ParkInFirstFree(pickupParking, vehicle, mFreePickup);
      } else if vehicleType.Automobile? && mFreeAutomobile > 0 {
        mFreeAutomobile := ParkInFirstFree(automobileParking, vehicle, mFreeAutomobile);
      } else if vehicle.Some? {
        refusedSoFar := refusedSoFar + [vehicle.value];
      }
    }

    method ParkOrFree(a: nat, now: int)
      requires Valid() && Enabled(View(), AttendantStep(a, now)) && attendantsAt[a].at.Parks?
      modifies this`mFreePickup, this`mFreeAutomobile, this`refusedSoFar, this`attendantsAt,
               pickupParking, automobileParking
      ensures Valid() && View() == Do(old(View()), AttendantStep(a, now))
    {
      ParkVehicle(attendantsAt[a].kind, attendantsAt[a].at.v);
      attendantsAt := attendantsAt[a := attendantsAt[a].(at := PostsCharge)];
    }

    /** Lines 88-100, then 103-112. */
    method CheckAndRemoveExpiredPickups(a: nat, now: int)
      requires Valid() && Enabled(View(), AttendantStep(a, now)) && attendantsAt[a].at.SweepsPickups?
      modifies this`mFreePickup, this`departedSoFar, this`attendantsAt, pickupParking
      ensures Valid() && View() == Do(old(View()), AttendantStep(a, now))
    {
      var removed;
      mFreePickup, removed := RemoveExpired(pickupParking, now, mFreePickup);
      departedSoFar := departedSoFar + removed;
      attendantsAt := attendantsAt[a := attendantsAt[a].(at := SweepsAutomobiles(now))];
    }

    method CheckAndRemoveExpiredAutomobiles(a: nat, now: int)
      requires Valid() && Enabled(View(), AttendantStep(a, now)) && attendantsAt[a].at.SweepsAutomobiles?
      modifies this`mFreeAutomobile, this`departedSoFar, this`attendantsAt, automobileParking
      ensures Valid() && View() == Do(old(View()), AttendantStep(a, now))
    {
      var removed;
      mFreeAutomobile, removed := RemoveExpired(automobileParking, attendantsAt[a].at.now, mFreeAutomobile);
      departedSoFar := departedSoFar + removed;
      attendantsAt := attendantsAt[a := attendantsAt[a].(at := AwaitsNew)];
    }
  }
}
