// The parking lot of Homework3/hw3.c, for any number of car owners and attendants.  A step is
// one semaphore operation or one critical section.

module Parking {
  import opened Counting
  import opened Runs

  const PICKUP_CAPACITY := 8
  const AUTOMOBILE_CAPACITY := 4
  const PARK_DURATION := 20
  const QUEUE_CAPACITY := 16

  datatype Kind = Pickup | Automobile

  function Other(k: Kind): Kind {
    match k
    case Pickup => Automobile
    case Automobile => Pickup
  }

  datatype Vehicle = Vehicle(id: nat, kind: Kind, arrival: int)

  /** Where a car owner stands; the comments give the line that comes next. */
  datatype Owner =
    | Away                  // 57
    | WaitsSlot(v: Vehicle) // 66, holds vehicle_arrival_lock from here on
    | PutsIn(v: Vehicle)    // 67
    | Posts(v: Vehicle)     // 72
    | WaitsDone(v: Vehicle) // 75 or 79
    | Unlocks               // 82

  /** Where an attendant stands.  What it takes from the queue may be a null pointer. */
  datatype At =
    | AwaitsNew                     // 122
    | AwaitsCharge                  // 123
    | TakesOut                      // 125
    | PostsFree(v: Option<Vehicle>) // 129
    | Parks(v: Option<Vehicle>)     // 131
    | PostsCharge                   // 147
    | PostsDone                     // 148
    | SweepsPickups                 // 88
    | SweepsAutomobiles(now: int)   // 103

  datatype Attendant = Attendant(kind: Kind, at: At)

  /** newPickup, inChargeforPickup and pickupDone, or those for automobiles. */
  datatype Sems = Sems(arrived: nat, inCharge: nat, done: nat)

  /** What the hand-off goes through: vehicle_arrival_lock, freeSlot, the ring with its two
      indices, and the semaphores. */
  datatype Gate = Gate(
    lockFree: bool, freeSlot: nat, ring: seq<Option<Vehicle>>, front: nat, rear: nat,
    pickup: Sems, automobile: Sems)

  /** The slots of one kind and the counter of those that are free. */
  datatype Lot = Lot(slots: seq<Option<Vehicle>>, free: int)

  /** What parking_lock guards; the vehicles that were freed are history. */
  datatype Park = Park(pickup: Lot, automobile: Lot, departed: seq<Vehicle>, refused: seq<Vehicle>)

  datatype State = State(
    gate: Gate, park: Park, nextId: nat, owners: seq<Owner>, attendants: seq<Attendant>,
    issued: seq<Vehicle>)

  datatype Action =
    | Arrive(p: nat, kind: Kind, now: int)
    | OwnerStep(p: nat)
    | AttendantStep(a: nat, now: int)   // `now` is what time(NULL) says, if it is asked

  const IDLE := Sems(0, 1, 0)

  function EmptyLot(capacity: nat): Lot {
    Lot(seq(capacity, _ => None), capacity)
  }

  function Init(owners: nat, kinds: seq<Kind>): State {
    State(Gate(true, QUEUE_CAPACITY, seq(QUEUE_CAPACITY, _ => None), 0, 0, IDLE, IDLE),
          Park(EmptyLot(PICKUP_CAPACITY), EmptyLot(AUTOMOBILE_CAPACITY), [], []),
          1, seq(owners, _ => Away),
          seq(|kinds|, a requires 0 <= a < |kinds| => Attendant(kinds[a], AwaitsNew)), [])
  }

  function SemsOf(g: Gate, k: Kind): Sems {
    if k.Pickup? then g.pickup else g.automobile
  }

  function WithSems(g: Gate, k: Kind, x: Sems): Gate {
    if k.Pickup? then g.(pickup := x) else g.(automobile := x)
  }

  function LotOf(k: Park, kind: Kind): Lot {
    if kind.Pickup? then k.pickup else k.automobile
  }

  function WithLot(k: Park, kind: Kind, l: Lot): Park {
    if kind.Pickup? then k.(pickup := l) else k.(automobile := l)
  }

  // ------------------------------------------------------------------------- car owners

  predicate OwnerEnabled(g: Gate, k: Owner) {
    match k
    case Away => false
    case WaitsSlot(_) => g.freeSlot > 0
    case WaitsDone(v) => SemsOf(g, v.kind).done > 0
    case _ => true
  }

  function OwnerNext(k: Owner): Owner {
    match k
    case Away => Away
    case WaitsSlot(v) => PutsIn(v)
    case PutsIn(v) => Posts(v)
    case Posts(v) => WaitsDone(v)
    case WaitsDone(_) => Unlocks
    case Unlocks => Away
  }

  /** Lines 68-69. */
  function Enqueued(g: Gate, v: Vehicle): Gate {
    if g.rear < |g.ring| then
      g.(ring := g.ring[g.rear := Some(v)], rear := (g.rear + 1) % QUEUE_CAPACITY)
    else g
  }

  function OwnerGate(g: Gate, k: Owner): Gate
    requires OwnerEnabled(g, k)
  {
    match k
    case WaitsSlot(_) => g.(freeSlot := g.freeSlot - 1)
    case PutsIn(v) => Enqueued(g, v)
    case Posts(v) => WithSems(g, v.kind, SemsOf(g, v.kind).(arrived := SemsOf(g, v.kind).arrived + 1))
    case WaitsDone(v) => WithSems(g, v.kind, SemsOf(g, v.kind).(done := SemsOf(g, v.kind).done - 1))
    case Unlocks => g.(lockFree := true)
  }

  // ------------------------------------------------------------------------- attendants

  predicate AttendantEnabled(g: Gate, x: Attendant) {
    match x.at
    case AwaitsNew => SemsOf(g, x.kind).arrived > 0
    case AwaitsCharge => SemsOf(g, x.kind).inCharge > 0
    case _ => true
  }

  /** Line 126: the slot at queue_front, whatever it holds. */
  function AtFront(g: Gate): Option<Vehicle> {
    if g.front < |g.ring| then g.ring[g.front] else None
  }

  function AttendantNext(g: Gate, at: At, now: int): At {
    match at
    case AwaitsNew => AwaitsCharge
    case AwaitsCharge => TakesOut
    case TakesOut => PostsFree(AtFront(g))
    case PostsFree(v) => Parks(v)
    case Parks(_) => PostsCharge
    case PostsCharge => PostsDone
    case PostsDone => SweepsPickups
    case SweepsPickups => SweepsAutomobiles(now)
    case SweepsAutomobiles(_) => AwaitsNew
  }

  function AttendantGate(g: Gate, x: Attendant): Gate
    requires AttendantEnabled(g, x)
  {
    var sems := SemsOf(g, x.kind);
    match x.at
    case AwaitsNew => WithSems(g, x.kind, sems.(arrived := sems.arrived - 1))
    case AwaitsCharge => WithSems(g, x.kind, sems.(inCharge := sems.inCharge - 1))
    case TakesOut => g.(front := (g.front + 1) % QUEUE_CAPACITY)
    case PostsFree(_) => g.(freeSlot := g.freeSlot + 1)
    case Parks(_) => g
    case PostsCharge => WithSems(g, x.kind, sems.(inCharge := sems.inCharge + 1))
    case PostsDone => WithSems(g, x.kind, sems.(done := sems.done + 1))
    case SweepsPickups => g
    case SweepsAutomobiles(_) => g
  }

  /** The loop of lines 133-140, from slot `i` on. */
  function FirstFree(slots: seq<Option<Vehicle>>, i: nat): Option<nat>
    requires i <= |slots|
    decreases |slots| - i
  {
    if i == |slots| then None
    else if slots[i] == None then Some(i)
    else FirstFree(slots, i + 1)
  }

  function Parked(l: Lot, v: Option<Vehicle>): Lot {
    match FirstFree(l.slots, 0)
    case None => l
    case Some(i) => if i < |l.slots| then Lot(l.slots[i := v], l.free - 1) else l
  }

  /** Lines 131-145. */
  function ParkOrRefuse(k: Park, kind: Kind, v: Option<Vehicle>): Park {
    if LotOf(k, kind).free > 0 then WithLot(k, kind, Parked(LotOf(k, kind), v))
    else if v.Some? then k.(refused := k.refused + [v.value])
    else k
  }

  predicate IsExpired(slot: Option<Vehicle>, now: int) {
    slot.Some? && now - slot.value.arrival >= PARK_DURATION
  }

  /** The vehicles in the first `n` slots whose time is up. */
  function Leaving(slots: seq<Option<Vehicle>>, n: nat, now: int): seq<Vehicle>
    requires n <= |slots|
  {
    if n == 0 then []
    else Leaving(slots, n - 1, now) + if IsExpired(slots[n - 1], now) then [slots[n - 1].value] else []
  }

  function Swept(slots: seq<Option<Vehicle>>, now: int): seq<Option<Vehicle>> {
    seq(|slots|, i requires 0 <= i < |slots| => if IsExpired(slots[i], now) then None else slots[i])
  }

  /** Lines 91-100 or 103-112. */
  function Sweep(k: Park, kind: Kind, now: int): Park {
    var l := LotOf(k, kind);
    var leaving := Leaving(l.slots, |l.slots|, now);
    WithLot(k, kind, Lot(Swept(l.slots, now), l.free + |leaving|)).(departed := k.departed + leaving)
  }

  function AttendantPark(k: Park, x: Attendant, now: int): Park {
    match x.at
    case Parks(v) => ParkOrRefuse(k, x.kind, v)
    case SweepsPickups => Sweep(k, Pickup, now)
    case SweepsAutomobiles(readAt) => Sweep(k, Automobile, readAt)
    case _ => k
  }

  // ------------------------------------------------------------------------------ steps

  predicate Enabled(s: State, a: Action) {
    match a
    case Arrive(p, _, _) => p < |s.owners| && s.owners[p].Away? && s.gate.lockFree
    case OwnerStep(p) => p < |s.owners| && OwnerEnabled(s.gate, s.owners[p])
    case AttendantStep(a, _) => a < |s.attendants| && AttendantEnabled(s.gate, s.attendants[a])
  }

  function Do(s: State, a: Action): State
    requires Enabled(s, a)
  {
    match a
    case Arrive(p, kind, now) =>
      var v := Vehicle(s.nextId, kind, now);
      s.(gate := s.gate.(lockFree := false), nextId := s.nextId + 1,
         owners := s.owners[p := WaitsSlot(v)], issued := s.issued + [v])
    case OwnerStep(p) =>
      s.(gate := OwnerGate(s.gate, s.owners[p]), owners := s.owners[p := OwnerNext(s.owners[p])])
    case AttendantStep(a, now) =>
      var x := s.attendants[a];
      s.(gate := AttendantGate(s.gate, x), park := AttendantPark(s.park, x, now),
         attendants := s.attendants[a := x.(at := AttendantNext(s.gate, x.at, now))])
  }

  function Step(s: State, a: Action): Option<State> {
    if Enabled(s, a) then Some(Do(s, a)) else None
  }

  // -------------------------------------------------------------------------- the token

  /** Who has the hand-off in hand: nobody; an owner alone; or an owner whose vehicle an attendant
      has in charge. */
  datatype Token = Nobody | Owns(o: nat) | Served(o: nat, a: nat)

  predicate InService(x: Attendant) {
    !x.at.AwaitsNew? && !x.at.SweepsPickups? && !x.at.SweepsAutomobiles?
  }

  ghost predicate AwayBut(owners: seq<Owner>, o: int) {
    forall p :: 0 <= p < |owners| && p != o ==> owners[p] == Away
  }

  ghost predicate OffDutyBut(attendants: seq<Attendant>, a: int) {
    forall b :: 0 <= b < |attendants| && b != a ==> !InService(attendants[b])
  }

  /** The queue holds `v` and nothing else, or nothing. */
  predicate QueueIs(g: Gate, v: Option<Vehicle>) {
    && |g.ring| == QUEUE_CAPACITY && g.front < QUEUE_CAPACITY && g.rear < QUEUE_CAPACITY
    && match v
       case None => g.rear == g.front
       case Some(_) => g.rear == (g.front + 1) % QUEUE_CAPACITY && g.ring[g.front] == v
  }

  predicate GateIs(g: Gate, queued: Option<Vehicle>, freeSlot: nat, kind: Kind, sems: Sems) {
    QueueIs(g, queued) && g.freeSlot == freeSlot && SemsOf(g, kind) == sems && SemsOf(g, Other(kind)) == IDLE
  }

  predicate OwnerHolds(g: Gate, k: Owner) {
    match k
    case Away => false
    case WaitsSlot(v) => GateIs(g, None, 16, v.kind, IDLE)
    case PutsIn(v) => GateIs(g, None, 15, v.kind, IDLE)
    case Posts(v) => GateIs(g, Some(v), 15, v.kind, IDLE)
    case WaitsDone(v) => GateIs(g, Some(v), 15, v.kind, Sems(1, 1, 0)) || GateIs(g, None, 16, v.kind, Sems(0, 1, 1))
    case Unlocks => GateIs(g, None, 16, Pickup, IDLE)
  }

  predicate Serves(g: Gate, v: Vehicle, at: At) {
    match at
    case AwaitsNew => false
    case AwaitsCharge => GateIs(g, Some(v), 15, v.kind, IDLE)
    case TakesOut => GateIs(g, Some(v), 15, v.kind, Sems(0, 0, 0))
    case PostsFree(w) => w == Some(v) && GateIs(g, None, 15, v.kind, Sems(0, 0, 0))
    case Parks(w) => w == Some(v) && GateIs(g, None, 16, v.kind, Sems(0, 0, 0))
    case PostsCharge => GateIs(g, None, 16, v.kind, Sems(0, 0, 0))
    case PostsDone => GateIs(g, None, 16, v.kind, IDLE)
    case SweepsPickups => false
    case SweepsAutomobiles(_) => false
  }

  /** There is one token: at most one owner is in its hand-off and at most one attendant in
      service, for that owner's vehicle, and the semaphores agree. */
  ghost predicate TokenOk(s: State, tok: Token) {
    match tok
    case Nobody =>
      s.gate.lockFree && AwayBut(s.owners, -1) && OffDutyBut(s.attendants, -1) && GateIs(s.gate, None, 16, Pickup, IDLE)
    case Owns(o) =>
      && !s.gate.lockFree && o < |s.owners| && AwayBut(s.owners, o) && OffDutyBut(s.attendants, -1)
      && OwnerHolds(s.gate, s.owners[o])
    case Served(o, a) =>
      && !s.gate.lockFree && o < |s.owners| && a < |s.attendants|
      && AwayBut(s.owners, o) && OffDutyBut(s.attendants, a)
      && s.owners[o].WaitsDone? && s.attendants[a].kind == s.owners[o].v.kind
      && Serves(s.gate, s.owners[o].v, s.attendants[a].at)
  }

  function NextToken(s: State, tok: Token, a: Action): Token
    requires Enabled(s, a)
  {
    match a
    case Arrive(p, _, _) => Owns(p)
    case OwnerStep(p) => if s.owners[p].Unlocks? then Nobody else tok
    case AttendantStep(b, _) =>
      if s.attendants[b].at.AwaitsNew? && tok.Owns? then Served(tok.o, b)
      else if s.attendants[b].at.PostsDone? && tok.Served? then Owns(tok.o)
      else tok
  }

  lemma ArriveKeepsToken(s: State, tok: Token, p: nat, kind: Kind, now: int)
    requires TokenOk(s, tok) && Enabled(s, Arrive(p, kind, now))
    ensures TokenOk(Do(s, Arrive(p, kind, now)), Owns(p))
  {
    match tok
    case Nobody =>
    case Owns(_) =>
    case Served(_, _) =>
  }

  lemma OwnerHoldsOn(g: Gate, k: Owner)
    requires OwnerHolds(g, k) && OwnerEnabled(g, k) && !k.Unlocks?
    ensures OwnerHolds(OwnerGate(g, k), OwnerNext(k)) && OwnerGate(g, k).lockFree == g.lockFree
  {
    match k
    case WaitsSlot(_) =>
    case PutsIn(_) =>
    case Posts(_) =>
    case WaitsDone(_) =>
  }

  lemma OwnerKeepsToken(s: State, tok: Token, p: nat)
    requires TokenOk(s, tok) && Enabled(s, OwnerStep(p))
    ensures TokenOk(Do(s, OwnerStep(p)), NextToken(s, tok, OwnerStep(p)))
  {
    match tok
    case Nobody =>
    case Owns(_) =>
      if !s.owners[p].Unlocks? {
        OwnerHoldsOn(s.gate, s.owners[p]);
      }
    case Served(_, _) =>
  }

  lemma ServesOn(g: Gate, v: Vehicle, x: Attendant, now: int)
    requires Serves(g, v, x.at) && x.kind == v.kind && AttendantEnabled(g, x) && !x.at.PostsDone?
    ensures Serves(AttendantGate(g, x), v, AttendantNext(g, x.at, now))
    ensures AttendantGate(g, x).lockFree == g.lockFree
  {
    match x.at
    case AwaitsCharge =>
    case TakesOut =>
    case PostsFree(_) =>
    case Parks(_) =>
    case PostsCharge =>
  }

  lemma AttendantKeepsToken(s: State, tok: Token, a: nat, now: int)
    requires TokenOk(s, tok) && Enabled(s, AttendantStep(a, now))
    ensures TokenOk(Do(s, AttendantStep(a, now)), NextToken(s, tok, AttendantStep(a, now)))
  {
    var x := s.attendants[a];
    if !InService(x) && !x.at.AwaitsNew? {
      SweepKeepsToken(s, tok, a, now);
    } else {
      match tok
      case Nobody =>
      case Owns(o) => TakingUp(s, o, a, now);
      case Served(o, _) =>
        if x.at.PostsDone? {
          HandingBack(s, o, a, now);
        } else {
          Serving(s, tok, a, now);
        }
    }
  }

  lemma SweepKeepsToken(s: State, tok: Token, a: nat, now: int)
    requires TokenOk(s, tok) && a < |s.attendants| && !InService(s.attendants[a]) && !s.attendants[a].at.AwaitsNew?
    ensures TokenOk(Do(s, AttendantStep(a, now)), tok)
  {
    match tok
    case Nobody =>
    case Owns(_) =>
    case Served(_, _) =>
  }

  /** An attendant's wait for a new vehicle ends only when an owner has posted one of its kind. */
  lemma TakingUp(s: State, o: nat, a: nat, now: int)
    requires TokenOk(s, Owns(o)) && Enabled(s, AttendantStep(a, now)) && s.attendants[a].at.AwaitsNew?
    ensures TokenOk(Do(s, AttendantStep(a, now)), Served(o, a))
  {
    assert s.owners[o].WaitsDone?;
  }

  lemma HandingBack(s: State, o: nat, a: nat, now: int)
    requires TokenOk(s, Served(o, a)) && s.attendants[a].at.PostsDone?
    ensures TokenOk(Do(s, AttendantStep(a, now)), Owns(o))
  {
  }

  lemma Serving(s: State, tok: Token, a: nat, now: int)
    requires TokenOk(s, tok) && tok.Served? && Enabled(s, AttendantStep(a, now))
    requires InService(s.attendants[a]) || s.attendants[a].at.AwaitsNew?
    requires !s.attendants[a].at.PostsDone?
    ensures TokenOk(Do(s, AttendantStep(a, now)), tok)
  {
    if a == tok.a {
      ServesOn(s.gate, s.owners[tok.o].v, s.attendants[a], now);
    }
  }

  lemma StepKeepsToken(s: State, tok: Token, a: Action)
    requires TokenOk(s, tok) && Enabled(s, a)
    ensures TokenOk(Do(s, a), NextToken(s, tok, a))
  {
    hide TokenOk;
    match a
    case Arrive(p, kind, now) => ArriveKeepsToken(s, tok, p, kind, now);
    case OwnerStep(p) => OwnerKeepsToken(s, tok, p);
    case AttendantStep(b, now) => AttendantKeepsToken(s, tok, b, now);
  }

  // --------------------------------------------------------------------- the parking slots

  predicate IsFree(slot: Option<Vehicle>) { slot == None }

  ghost predicate LotOk(l: Lot, kind: Kind, capacity: nat) {
    && |l.slots| == capacity && l.free == Count(l.slots, IsFree)
    && (forall i :: 0 <= i < |l.slots| && l.slots[i].Some? ==> l.slots[i].value.kind == kind)
  }

  function Holds(w: Vehicle): Option<Vehicle> -> bool {
    slot => slot == Some(w)
  }

  function Is(w: Vehicle): Vehicle -> bool {
    v => v == w
  }

  /** While a slot is free the search finds the first one. */
  lemma {:induction false} FirstFreeIs(slots: seq<Option<Vehicle>>, i: nat)
    requires i <= |slots|
    ensures var r := FirstFree(slots, i);
            match r
            case Some(j) => i <= j < |slots| && slots[j] == None && forall k :: i <= k < j ==> slots[k].Some?
            case None => forall k :: i <= k < |slots| ==> slots[k].Some?
    decreases |slots| - i
  {
    if i < |slots| && slots[i].Some? {
      FirstFreeIs(slots, i + 1);
    }
  }

  /** A positive counter means that the search parks the vehicle, in a slot that was free. */
  lemma ParkedKeeps(l: Lot, kind: Kind, capacity: nat, v: Vehicle)
    requires LotOk(l, kind, capacity) && l.free > 0 && v.kind == kind
    ensures var m := Parked(l, Some(v));
            LotOk(m, kind, capacity) && forall w :: Count(m.slots, Holds(w)) == Count(l.slots, Holds(w)) + One(v == w)
  {
    FirstFreeIs(l.slots, 0);
    CountZero(l.slots, IsFree);
    var i := FirstFree(l.slots, 0).value;
    CountUpdate(l.slots, i, Some(v), IsFree);
    forall w ensures Count(l.slots[i := Some(v)], Holds(w)) == Count(l.slots, Holds(w)) + One(v == w) {
      CountUpdate(l.slots, i, Some(v), Holds(w));
    }
  }

  lemma {:induction false} SweptTo(slots: seq<Option<Vehicle>>, n: nat, now: int, w: Vehicle)
    requires n <= |slots|
    ensures CountTo(Swept(slots, now), n, IsFree) == CountTo(slots, n, IsFree) + |Leaving(slots, n, now)|
    ensures CountTo(Swept(slots, now), n, Holds(w)) + Count(Leaving(slots, n, now), Is(w))
            == CountTo(slots, n, Holds(w))
  {
    if n > 0 {
      SweptTo(slots, n - 1, now, w);
      var before := Leaving(slots, n - 1, now);
      if IsExpired(slots[n - 1], now) {
        CountPush(before, slots[n - 1].value, Is(w));
      } else {
        assert before + [] == before;
      }
    }
  }

  /** A sweep frees what has stood its time, counts it, and leaves the rest where it is. */
  lemma SweepKeeps(l: Lot, kind: Kind, capacity: nat, now: int, w: Vehicle)
    requires LotOk(l, kind, capacity)
    ensures var leaving := Leaving(l.slots, |l.slots|, now);
            && LotOk(Lot(Swept(l.slots, now), l.free + |leaving|), kind, capacity)
            && Count(Swept(l.slots, now), Holds(w)) + Count(leaving, Is(w)) == Count(l.slots, Holds(w))
  {
    SweptTo(l.slots, |l.slots|, now, w);
  }

  // ------------------------------------------------------------------------ conservation

  ghost predicate ParkOk(k: Park) {
    LotOk(k.pickup, Pickup, PICKUP_CAPACITY) && LotOk(k.automobile, Automobile, AUTOMOBILE_CAPACITY)
  }

  /** How often the lot has taken in `w`: where it is parked and where it was freed. */
  function Taken(k: Park, w: Vehicle): nat {
    Count(k.pickup.slots, Holds(w)) + Count(k.automobile.slots, Holds(w))
    + Count(k.departed, Is(w)) + Count(k.refused, Is(w))
  }

  lemma ParkOrRefuseKeeps(k: Park, v: Vehicle)
    requires ParkOk(k)
    ensures ParkOk(ParkOrRefuse(k, v.kind, Some(v)))
    ensures forall w :: Taken(ParkOrRefuse(k, v.kind, Some(v)), w) == Taken(k, w) + One(v == w)
  {
    hide LotOk;
    if LotOf(k, v.kind).free > 0 {
      match v.kind
      case Pickup => ParkedKeeps(k.pickup, Pickup, PICKUP_CAPACITY, v);
      case Automobile => ParkedKeeps(k.automobile, Automobile, AUTOMOBILE_CAPACITY, v);
    } else {
      forall w ensures Count(k.refused + [v], Is(w)) == Count(k.refused, Is(w)) + One(v == w) {
        CountPush(k.refused, v, Is(w));
      }
    }
  }

  lemma SweepKeepsPark(k: Park, kind: Kind, now: int)
    requires ParkOk(k)
    ensures ParkOk(Sweep(k, kind, now)) && forall w :: Taken(Sweep(k, kind, now), w) == Taken(k, w)
  {
    hide LotOk;
    var l, capacity := LotOf(k, kind), if kind.Pickup? then PICKUP_CAPACITY else AUTOMOBILE_CAPACITY;
    SweepKeeps(l, kind, capacity, now, Vehicle(0, kind, 0));
    forall w ensures Taken(Sweep(k, kind, now), w) == Taken(k, w) {
      SweepKeeps(l, kind, capacity, now, w);
      CountConcat(k.departed, Leaving(l.slots, |l.slots|, now), Is(w));
    }
  }

  /** The vehicle on its way from an owner to the parking slots. */
  function InHand(s: State, tok: Token): Option<Vehicle> {
    match tok
    case Nobody => None
    case Owns(o) =>
      if o >= |s.owners| then None else
      (match s.owners[o]
       case Away => None
       case WaitsSlot(v) => Some(v)
       case PutsIn(v) => Some(v)
       case Posts(v) => Some(v)
       case WaitsDone(v) => if SemsOf(s.gate, v.kind).done == 0 then Some(v) else None
       case Unlocks => None)
    case Served(o, a) =>
      if o >= |s.owners| || a >= |s.attendants| || !s.owners[o].WaitsDone? then None else
      var at := s.attendants[a].at;
      if at.AwaitsCharge? || at.TakesOut? || at.PostsFree? || at.Parks? then Some(s.owners[o].v) else None
  }

  ghost predicate Conserved(s: State, tok: Token) {
    forall w :: One(InHand(s, tok) == Some(w)) + Taken(s.park, w) == Count(s.issued, Is(w))
  }

  /** The vehicles were numbered 1, 2, ... as they came. */
  ghost predicate IssuedOk(s: State) {
    s.nextId == |s.issued| + 1 && forall i :: 0 <= i < |s.issued| ==> s.issued[i].id == i + 1
  }

  ghost predicate InvFor(s: State, tok: Token) {
    TokenOk(s, tok) && ParkOk(s.park) && Conserved(s, tok) && IssuedOk(s)
  }

  ghost predicate Inv(s: State) {
    exists tok :: InvFor(s, tok)
  }

  lemma OwnerHand(s: State, tok: Token, p: nat)
    requires TokenOk(s, tok) && Enabled(s, OwnerStep(p))
    ensures InHand(Do(s, OwnerStep(p)), NextToken(s, tok, OwnerStep(p))) == InHand(s, tok)
  {
    match tok
    case Nobody =>
    case Owns(_) =>
      match s.owners[p] {
        case WaitsSlot(_) =>
        case PutsIn(_) =>
        case Posts(_) =>
        case WaitsDone(_) =>
        case Unlocks =>
        case Away =>
      }
    case Served(_, _) =>
  }

  predicate IsParking(s: State, tok: Token, a: nat) {
    tok.Served? && tok.a == a && a < |s.attendants| && s.attendants[a].at.Parks?
  }

  /** Only parking takes the vehicle out of the hand-off. */
  lemma AttendantHand(s: State, tok: Token, a: nat, now: int)
    requires TokenOk(s, tok) && Enabled(s, AttendantStep(a, now))
    ensures InHand(Do(s, AttendantStep(a, now)), NextToken(s, tok, AttendantStep(a, now)))
            == if IsParking(s, tok, a) then None else InHand(s, tok)
    ensures IsParking(s, tok, a) ==>
      && InHand(s, tok).Some? && s.attendants[a].at.v == InHand(s, tok)
      && InHand(s, tok).value.kind == s.attendants[a].kind
    ensures s.attendants[a].at.Parks? ==> IsParking(s, tok, a)
  {
    match tok
    case Nobody =>
    case Owns(_) =>
    case Served(_, _) =>
      match s.attendants[a].at {
        case AwaitsNew =>
        case AwaitsCharge =>
        case TakesOut =>
        case PostsFree(_) =>
        case Parks(_) =>
        case PostsCharge =>
        case PostsDone =>
        case SweepsPickups =>
        case SweepsAutomobiles(_) =>
      }
  }

  lemma ArriveConserves(s: State, tok: Token, p: nat, kind: Kind, now: int)
    requires InvFor(s, tok) && Enabled(s, Arrive(p, kind, now))
    ensures InvFor(Do(s, Arrive(p, kind, now)), Owns(p))
  {
    StepKeepsToken(s, tok, Arrive(p, kind, now));
    var t := Do(s, Arrive(p, kind, now));
    assert InHand(s, tok).None? && InHand(t, Owns(p)) == Some(Vehicle(s.nextId, kind, now)) by {
      match tok
      case Nobody =>
      case Owns(_) =>
      case Served(_, _) =>
    }
    hide TokenOk, ParkOk, InHand, Taken;
    forall w
      ensures One(InHand(t, Owns(p)) == Some(w)) + Taken(t.park, w) == Count(t.issued, Is(w))
    {
      CountPush(s.issued, Vehicle(s.nextId, kind, now), Is(w));
    }
  }

  lemma OwnerConserves(s: State, tok: Token, p: nat)
    requires InvFor(s, tok) && Enabled(s, OwnerStep(p))
    ensures InvFor(Do(s, OwnerStep(p)), NextToken(s, tok, OwnerStep(p)))
  {
    hide TokenOk, LotOk, InHand;
    StepKeepsToken(s, tok, OwnerStep(p));
    OwnerHand(s, tok, p);
  }

  lemma AttendantConserves(s: State, tok: Token, a: nat, now: int)
    requires InvFor(s, tok) && Enabled(s, AttendantStep(a, now))
    ensures InvFor(Do(s, AttendantStep(a, now)), NextToken(s, tok, AttendantStep(a, now)))
  {
    hide TokenOk, ParkOk, InHand, Taken, NextToken;
    var x := s.attendants[a];
    StepKeepsToken(s, tok, AttendantStep(a, now));
    AttendantHand(s, tok, a, now);
    match x.at
    case Parks(_) => ParkOrRefuseKeeps(s.park, InHand(s, tok).value);
    case SweepsPickups => SweepKeepsPark(s.park, Pickup, now);
    case SweepsAutomobiles(readAt) => SweepKeepsPark(s.park, Automobile, readAt);
    case _ =>
  }

  lemma StepKeepsInv(s: State, a: Action)
    requires Inv(s) && Enabled(s, a)
    ensures Inv(Do(s, a))
  {
    hide InvFor;
    var tok :| InvFor(s, tok);
    match a
    case Arrive(p, kind, now) => ArriveConserves(s, tok, p, kind, now);
    case OwnerStep(p) => OwnerConserves(s, tok, p);
    case AttendantStep(b, now) => AttendantConserves(s, tok, b, now);
  }

  // ----------------------------------------------------------------------------- theorems

  ghost predicate Reachable(s: State) {
    exists owners: nat, kinds: seq<Kind> :: Reaches(Step, Init(owners, kinds), s)
  }

  lemma {:induction false} EmptyTo(capacity: nat, n: nat)
    requires n <= capacity
    ensures CountTo(EmptyLot(capacity).slots, n, IsFree) == n
  {
    if n > 0 {
      EmptyTo(capacity, n - 1);
    }
  }

  lemma InitInv(owners: nat, kinds: seq<Kind>)
    ensures Inv(Init(owners, kinds))
  {
    EmptyTo(PICKUP_CAPACITY, PICKUP_CAPACITY);
    EmptyTo(AUTOMOBILE_CAPACITY, AUTOMOBILE_CAPACITY);
    forall w ensures Taken(Init(owners, kinds).park, w) == 0 {
      CountZero(EmptyLot(PICKUP_CAPACITY).slots, Holds(w));
      CountZero(EmptyLot(AUTOMOBILE_CAPACITY).slots, Holds(w));
    }
    assert InvFor(Init(owners, kinds), Nobody);
  }

  lemma ReachableInv(s: State)
    requires Reachable(s)
    ensures Inv(s)
  {
    hide Inv;
    var owners: nat, kinds: seq<Kind> :| Reaches(Step, Init(owners, kinds), s);
    InitInv(owners, kinds);
    forall t, a | Inv(t) && Step(t, a).Some?
      ensures Inv(Step(t, a).value)
    {
      StepKeepsInv(t, a);
    }
    ReachesKeeps(Step, Inv, Init(owners, kinds), s);
  }

  predicate AtDone(k: Owner) { k.WaitsDone? }
  predicate NotAway(k: Owner) { !k.Away? }

  lemma CountsOfToken(s: State, tok: Token)
    requires TokenOk(s, tok)
    ensures Count(s.owners, NotAway) == One(!s.gate.lockFree)
    ensures Count(s.owners, AtDone) == if tok == Nobody then 0 else One(AtDone(s.owners[tok.o]))
    ensures Count(s.attendants, InService) == One(tok.Served?)
  {
    match tok
    case Nobody =>
      CountZero(s.owners, NotAway);
      CountZero(s.owners, AtDone);
      CountZero(s.attendants, InService);
    case Owns(o) =>
      CountOnly(s.owners, o, NotAway);
      CountOnly(s.owners, o, AtDone);
      CountZero(s.attendants, InService);
    case Served(o, a) =>
      CountOnly(s.owners, o, NotAway);
      CountOnly(s.owners, o, AtDone);
      CountOnly(s.attendants, a, InService);
  }

  /** The two semaphores for new vehicles, the two for done ones and the attendants in service
      hold one token between them, and only while an owner waits for its vehicle; and at most one
      owner is in a hand-off at all, with the lock. */
  lemma OneTokenInFlight(s: State)
    requires Reachable(s)
    ensures s.gate.pickup.arrived + s.gate.automobile.arrived + s.gate.pickup.done + s.gate.automobile.done
            + Count(s.attendants, InService) == Count(s.owners, AtDone) <= 1
    ensures Count(s.owners, NotAway) == One(!s.gate.lockFree)
  {
    ReachableInv(s);
    hide ParkOk, Conserved, IssuedOk, TokenOk;
    var tok :| InvFor(s, tok);
    CountsOfToken(s, tok);
    TokensOfToken(s, tok);
  }

  lemma TokensOfToken(s: State, tok: Token)
    requires TokenOk(s, tok)
    ensures s.gate.pickup.arrived + s.gate.automobile.arrived + s.gate.pickup.done + s.gate.automobile.done
            + One(tok.Served?)
            == if tok == Nobody then 0 else One(AtDone(s.owners[tok.o]))
  {
    match tok
    case Nobody =>
    case Owns(_) =>
      match s.owners[tok.o] {
        case WaitsSlot(_) =>
        case PutsIn(_) =>
        case Posts(_) =>
        case WaitsDone(_) =>
        case Unlocks =>
      }
    case Served(_, _) =>
      match s.attendants[tok.a].at {
        case AwaitsCharge =>
        case TakesOut =>
        case PostsFree(_) =>
        case Parks(_) =>
        case PostsCharge =>
        case PostsDone =>
      }
  }

  /** How many vehicles are in the queue, by its indices. */
  function QueueLength(g: Gate): int {
    (g.rear - g.front + QUEUE_CAPACITY) % QUEUE_CAPACITY
  }

  ghost predicate ShortQueue(g: Gate) {
    && (QueueIs(g, None) || exists v :: QueueIs(g, Some(v)))
    && (g.freeSlot == QUEUE_CAPACITY || g.freeSlot == QUEUE_CAPACITY - 1)
  }

  lemma ShortLength(g: Gate)
    requires ShortQueue(g)
    ensures QueueLength(g) <= 1
  {
    if !QueueIs(g, None) && g.front == QUEUE_CAPACITY - 1 {
      assert g.rear == 0;
    }
  }

  lemma OwnerQueue(g: Gate, k: Owner)
    requires OwnerHolds(g, k)
    ensures ShortQueue(g) && (k.WaitsSlot? ==> g.freeSlot == QUEUE_CAPACITY)
  {
    match k
    case WaitsSlot(_) =>
    case PutsIn(_) =>
    case Posts(_) =>
    case WaitsDone(_) =>
    case Unlocks =>
  }

  lemma AttendantQueue(g: Gate, v: Vehicle, at: At)
    requires Serves(g, v, at)
    ensures ShortQueue(g)
  {
    match at
    case AwaitsCharge =>
    case TakesOut =>
    case PostsFree(_) =>
    case Parks(_) =>
    case PostsCharge =>
    case PostsDone =>
  }

  lemma ServesIsEnabled(g: Gate, v: Vehicle, x: Attendant)
    requires Serves(g, v, x.at) && x.kind == v.kind
    ensures AttendantEnabled(g, x)
  {
  }

  lemma QueueOfToken(s: State, tok: Token)
    requires TokenOk(s, tok)
    ensures ShortQueue(s.gate)
    ensures forall p :: 0 <= p < |s.owners| && s.owners[p].WaitsSlot? ==> s.gate.freeSlot == QUEUE_CAPACITY
    ensures forall a :: 0 <= a < |s.attendants| && InService(s.attendants[a]) ==>
      AttendantEnabled(s.gate, s.attendants[a])
  {
    match tok
    case Nobody =>
    case Owns(o) =>
      OwnerQueue(s.gate, s.owners[o]);
      hide OwnerHolds, ShortQueue, AttendantEnabled;
    case Served(o, a) =>
      AttendantQueue(s.gate, s.owners[o].v, s.attendants[a].at);
      ServesIsEnabled(s.gate, s.owners[o].v, s.attendants[a]);
      hide Serves, ShortQueue, AttendantEnabled;
  }

  /** The queue never holds more than one vehicle; so freeSlot never blocks an owner, and no
      attendant in service is ever blocked by inCharge. */
  lemma QueueHoldsAtMostOne(s: State)
    requires Reachable(s)
    ensures QueueLength(s.gate) <= 1 && s.gate.freeSlot >= QUEUE_CAPACITY - 1
    ensures forall p :: 0 <= p < |s.owners| && s.owners[p].WaitsSlot? ==> s.gate.freeSlot == QUEUE_CAPACITY
    ensures forall a :: 0 <= a < |s.attendants| && InService(s.attendants[a]) ==>
      AttendantEnabled(s.gate, s.attendants[a])
  {
    ReachableInv(s);
    hide TokenOk, ParkOk, Conserved, IssuedOk, AttendantEnabled, QueueLength;
    var tok :| InvFor(s, tok);
    QueueOfToken(s, tok);
    ShortLength(s.gate);
  }

  /** An attendant about to take a vehicle out of the shared queue finds one of its own kind, and
      it is the one that the owner in the hand-off waits for; and that is the one it parks. */
  lemma TakesItsOwnKind(s: State, a: nat)
    requires Reachable(s) && a < |s.attendants|
    ensures var x := s.attendants[a];
            var v := match x.at
                     case TakesOut => AtFront(s.gate)
                     case PostsFree(v) => v
                     case Parks(v) => v
                     case _ => None;
            x.at.TakesOut? || x.at.PostsFree? || x.at.Parks? ==>
              v.Some? && v.value.kind == x.kind
              && exists o :: 0 <= o < |s.owners| && s.owners[o] == WaitsDone(v.value)
  {
    ReachableInv(s);
    hide ParkOk, Conserved, IssuedOk;
    var tok :| InvFor(s, tok);
    match tok
    case Nobody =>
    case Owns(_) =>
    case Served(o, _) =>
      assert s.owners[o] == WaitsDone(s.owners[o].v);
  }

  /** The counters are exact, and each part of the lot holds its own kind only. */
  lemma CountersAreExact(s: State)
    requires Reachable(s)
    ensures |s.park.pickup.slots| == 8 && |s.park.automobile.slots| == 4
    ensures s.park.pickup.free == Count(s.park.pickup.slots, IsFree)
    ensures s.park.automobile.free == Count(s.park.automobile.slots, IsFree)
    ensures forall i :: 0 <= i < 8 && s.park.pickup.slots[i].Some? ==>
      s.park.pickup.slots[i].value.kind.Pickup?
    ensures forall i :: 0 <= i < 4 && s.park.automobile.slots[i].Some? ==>
      s.park.automobile.slots[i].value.kind.Automobile?
  {
    ReachableInv(s);
    hide TokenOk, Conserved, IssuedOk;
  }

  /** A vehicle that arrives gets the next id, and is of the kind and has the time that its owner
      says; the owner holds it, and the lock. */
  lemma ArrivalIsRecorded(s: State, p: nat, kind: Kind, now: int)
    requires Reachable(s) && Enabled(s, Arrive(p, kind, now))
    ensures var t, v := Do(s, Arrive(p, kind, now)), Vehicle(|s.issued| + 1, kind, now);
            && t.issued == s.issued + [v] && t.owners == s.owners[p := WaitsSlot(v)]
            && !t.gate.lockFree && t == s.(gate := s.gate.(lockFree := false), nextId := |s.issued| + 2,
                                           owners := t.owners, issued := t.issued)
  {
    ReachableInv(s);
    hide TokenOk, ParkOk, Conserved;
  }

  /** The statements of an attendant in the order of the source, from the wait for a vehicle to the
      second sweep, after which it waits again. */
  function AttendantStage(at: At): nat {
    match at
    case AwaitsNew => 0
    case AwaitsCharge => 1
    case TakesOut => 2
    case PostsFree(_) => 3
    case Parks(_) => 4
    case PostsCharge => 5
    case PostsDone => 6
    case SweepsPickups => 7
    case SweepsAutomobiles(_) => 8
  }

  function OwnerStage(k: Owner): nat {
    match k
    case Away => 0
    case WaitsSlot(_) => 1
    case PutsIn(_) => 2
    case Posts(_) => 3
    case WaitsDone(_) => 4
    case Unlocks => 5
  }

  function VehicleOf(k: Owner): Option<Vehicle> {
    if k.Away? || k.Unlocks? then None else Some(k.v)
  }

  /** Owners and attendants go through their loops in order, without leaving out a statement. */
  lemma GoRound(s: State, a: Action)
    requires Enabled(s, a)
    ensures var t := Do(s, a);
            match a
            case Arrive(p, _, _) => s.owners[p] == Away && OwnerStage(t.owners[p]) == 1
            case OwnerStep(p) =>
              && OwnerStage(t.owners[p]) == (OwnerStage(s.owners[p]) + 1) % 6
              && (VehicleOf(t.owners[p]).Some? ==> VehicleOf(t.owners[p]) == VehicleOf(s.owners[p]))
            case AttendantStep(b, _) =>
              && AttendantStage(t.attendants[b].at) == (AttendantStage(s.attendants[b].at) + 1) % 9
              && t.attendants[b].kind == s.attendants[b].kind
              && (s.attendants[b].at.PostsFree? ==> t.attendants[b].at == Parks(s.attendants[b].at.v))
  {
    match a
    case Arrive(_, _, _) =>
    case OwnerStep(p) =>
      match s.owners[p] {
        case WaitsSlot(_) =>
        case PutsIn(_) =>
        case Posts(_) =>
        case WaitsDone(_) =>
        case Unlocks =>
      }
    case AttendantStep(_, _) =>
  }

  /** What becomes of a vehicle that an attendant parks: while any slot of its kind is empty, it
      takes one of them and nobody is refused; it is refused exactly when they are all taken. */
  lemma ParksWhileThereIsRoom(s: State, a: nat, now: int, v: Vehicle)
    requires Reachable(s) && a < |s.attendants| && s.attendants[a].at == Parks(Some(v))
    ensures var k, k' := s.park, Do(s, AttendantStep(a, now)).park;
            var slots := if v.kind.Pickup? then k.pickup.slots else k.automobile.slots;
            var slots' := if v.kind.Pickup? then k'.pickup.slots else k'.automobile.slots;
            && (if v.kind.Pickup? then k'.automobile == k.automobile else k'.pickup == k.pickup)
            && k'.departed == k.departed
            && if exists i :: 0 <= i < |slots| && slots[i] == None
               then k'.refused == k.refused
                    && exists j :: 0 <= j < |slots| && slots[j] == None && slots' == slots[j := Some(v)]
               else k'.refused == k.refused + [v] && slots' == slots
  {
    TakesItsOwnKind(s, a);
    CountersAreExact(s);
    hide Reachable;
    var l := LotOf(s.park, v.kind);
    FirstFreeIs(l.slots, 0);
    CountZero(l.slots, IsFree);
    if i :| 0 <= i < |l.slots| && l.slots[i] == None {
      assert IsFree(l.slots[i]);
    }
  }

  /** What a sweep does to every slot: exactly the vehicles that have stood 20 seconds by the time
      that the attendant has read are gone from it and have departed. */
  lemma SweepEmptiesExpired(s: State, a: nat, now: int)
    requires a < |s.attendants| && (s.attendants[a].at.SweepsPickups? || s.attendants[a].at.SweepsAutomobiles?)
    ensures var at, k, t := s.attendants[a].at, s.park, Do(s, AttendantStep(a, now));
            var k' := t.park;
            var time := if at.SweepsPickups? then now else at.now;
            var slots := if at.SweepsPickups? then k.pickup.slots else k.automobile.slots;
            var slots' := if at.SweepsPickups? then k'.pickup.slots else k'.automobile.slots;
            && (if at.SweepsPickups? then k'.automobile == k.automobile else k'.pickup == k.pickup)
            && k'.refused == k.refused && k.departed <= k'.departed
            && t.attendants[a].at == (if at.SweepsPickups? then SweepsAutomobiles(time) else AwaitsNew)
            && |slots'| == |slots|
            && forall i :: 0 <= i < |slots| ==>
                 if slots[i].Some? && time - slots[i].value.arrival >= 20
                 then slots'[i] == None && slots[i].value in k'.departed
                 else slots'[i] == slots[i]
  {
    var at := s.attendants[a].at;
    var slots := if at.SweepsPickups? then s.park.pickup.slots else s.park.automobile.slots;
    var time := if at.SweepsPickups? then now else at.now;
    forall i | 0 <= i < |slots| && IsExpired(slots[i], time)
      ensures slots[i].value in Leaving(slots, |slots|, time)
    {
      ExpiredLeaves(slots, |slots|, time, i);
    }
  }

  // Where every vehicle is.

  function Brings(w: Vehicle): Owner -> bool {
    (k: Owner) => (k.WaitsSlot? || k.PutsIn?) && k.v == w
  }

  function Leads(w: Vehicle): Attendant -> bool {
    (x: Attendant) => (x.at.PostsFree? || x.at.Parks?) && x.at.v == Some(w)
  }

  /** The slots of the ring from front to rear. */
  function InQueue(g: Gate): seq<Option<Vehicle>>
    requires |g.ring| == QUEUE_CAPACITY
  {
    seq(QueueLength(g), k requires 0 <= k < QueueLength(g) => g.ring[(g.front + k) % QUEUE_CAPACITY])
  }

  /** How often `w` is with an owner, in the queue or with an attendant. */
  ghost function InTransit(s: State, w: Vehicle): nat
    requires |s.gate.ring| == QUEUE_CAPACITY
  {
    Count(s.owners, Brings(w)) + Count(InQueue(s.gate), Holds(w)) + Count(s.attendants, Leads(w))
  }

  lemma QueueCount(g: Gate, v: Option<Vehicle>, w: Vehicle)
    requires QueueIs(g, v)
    ensures Count(InQueue(g), Holds(w)) == One(v == Some(w))
  {
    match v
    case None => assert InQueue(g) == [];
    case Some(_) =>
      assert InQueue(g) == [v];
      CountOnly([v], 0, Holds(w));
  }

  lemma TransitOfOwner(s: State, o: nat, w: Vehicle)
    requires TokenOk(s, Owns(o))
    ensures InTransit(s, w) == One(InHand(s, Owns(o)) == Some(w))
  {
    CountOnly(s.owners, o, Brings(w));
    CountZero(s.attendants, Leads(w));
    match s.owners[o]
    case WaitsSlot(_) => QueueCount(s.gate, None, w);
    case PutsIn(_) => QueueCount(s.gate, None, w);
    case Posts(v) => QueueCount(s.gate, Some(v), w);
    case WaitsDone(v) => QueueCount(s.gate, if SemsOf(s.gate, v.kind).done == 0 then Some(v) else None, w);
    case Unlocks => QueueCount(s.gate, None, w);
  }

  lemma TransitOfAttendant(s: State, o: nat, a: nat, w: Vehicle)
    requires TokenOk(s, Served(o, a))
    ensures InTransit(s, w) == One(InHand(s, Served(o, a)) == Some(w))
  {
    CountZero(s.owners, Brings(w));
    CountOnly(s.attendants, a, Leads(w));
    var v := s.owners[o].v;
    match s.attendants[a].at
    case AwaitsCharge => QueueCount(s.gate, Some(v), w);
    case TakesOut => QueueCount(s.gate, Some(v), w);
    case PostsFree(_) => QueueCount(s.gate, None, w);
    case Parks(_) => QueueCount(s.gate, None, w);
    case PostsCharge => QueueCount(s.gate, None, w);
    case PostsDone => QueueCount(s.gate, None, w);
  }

  lemma Transit(s: State, tok: Token, w: Vehicle)
    requires TokenOk(s, tok) && |s.gate.ring| == QUEUE_CAPACITY
    ensures InTransit(s, w) == One(InHand(s, tok) == Some(w))
  {
    match tok
    case Nobody =>
      CountZero(s.owners, Brings(w));
      CountZero(s.attendants, Leads(w));
      QueueCount(s.gate, None, w);
    case Owns(o) => TransitOfOwner(s, o, w);
    case Served(o, a) => TransitOfAttendant(s, o, a, w);
  }

  lemma IssuedOnce(s: State, w: Vehicle)
    requires IssuedOk(s)
    ensures Count(s.issued, Is(w)) == One(w in s.issued)
  {
    if w in s.issued {
      var i :| 0 <= i < |s.issued| && s.issued[i] == w;
      CountOnly(s.issued, i, Is(w));
    } else {
      CountZero(s.issued, Is(w));
    }
  }

  /** No vehicle is lost, doubled or freed twice: every vehicle that came is, once, in the
      hand-off, in a parking slot, or among those that were freed, on leaving or on being refused;
      and no other vehicle is anywhere.  The vehicles that came are numbered from 1 on. */
  lemma VehiclesAreConserved(s: State)
    requires Reachable(s)
    ensures |s.gate.ring| == QUEUE_CAPACITY
    ensures forall w ::
      InTransit(s, w) + Count(s.park.pickup.slots, Holds(w)) + Count(s.park.automobile.slots, Holds(w))
      + Count(s.park.departed, Is(w)) + Count(s.park.refused, Is(w)) == One(w in s.issued)
    ensures s.nextId == |s.issued| + 1 && forall i :: 0 <= i < |s.issued| ==> s.issued[i].id == i + 1
  {
    ReachableInv(s);
    var tok :| InvFor(s, tok);
    RingSize(s, tok);
    hide TokenOk, ParkOk, InTransit, InHand;
    forall w
      ensures InTransit(s, w) + Count(s.park.pickup.slots, Holds(w)) + Count(s.park.automobile.slots, Holds(w))
              + Count(s.park.departed, Is(w)) + Count(s.park.refused, Is(w)) == One(w in s.issued)
    {
      Transit(s, tok, w);
      IssuedOnce(s, w);
      assert One(InHand(s, tok) == Some(w)) + Taken(s.park, w) == Count(s.issued, Is(w));
    }
  }

  lemma RingSize(s: State, tok: Token)
    requires TokenOk(s, tok)
    ensures |s.gate.ring| == QUEUE_CAPACITY
  {
    match tok
    case Nobody =>
    case Owns(_) =>
    case Served(_, _) =>
  }

  /** A vehicle that is parked stays in its slot until it has stood its time, and then departs. */
  lemma StaysItsTime(s: State, a: Action, kind: Kind, i: nat)
    requires Enabled(s, a) && i < |LotOf(s.park, kind).slots| && LotOf(s.park, kind).slots[i].Some?
    ensures var k, k' := s.park, Do(s, a).park;
            var v, l' := LotOf(k, kind).slots[i].value, LotOf(k', kind);
            && i < |l'.slots|
            && (l'.slots[i] == Some(v)
                || (l'.slots[i] == None && a.AttendantStep? && v in k'.departed
                    && var at := s.attendants[a.a].at;
                       (at.SweepsPickups? && a.now - v.arrival >= PARK_DURATION)
                       || (at.SweepsAutomobiles? && at.now - v.arrival >= PARK_DURATION)))
  {
    if a.AttendantStep? {
      var x, l := s.attendants[a.a], LotOf(s.park, kind);
      match x.at
      case Parks(_) => FirstFreeIs(l.slots, 0);
      case SweepsPickups => ExpiredLeaves(l.slots, |l.slots|, a.now, i);
      case SweepsAutomobiles(readAt) => ExpiredLeaves(l.slots, |l.slots|, readAt, i);
      case _ =>
    }
  }

  lemma {:induction false} ExpiredLeaves(slots: seq<Option<Vehicle>>, n: nat, now: int, i: nat)
    requires n <= |slots| && i < |slots|
    ensures i < n && IsExpired(slots[i], now) ==> slots[i].value in Leaving(slots, n, now)
  {
    if n > 0 {
      ExpiredLeaves(slots, n - 1, now, i);
    }
  }

  // -------------------------------------------------------------- every hand-off comes to an end

  predicate NoArrival(a: Action) { !a.Arrive? }

  ghost predicate Stuck(s: State) {
    && (forall p :: 0 <= p < |s.owners| ==> !OwnerEnabled(s.gate, s.owners[p]))
    && (forall a :: 0 <= a < |s.attendants| ==> !AttendantEnabled(s.gate, s.attendants[a]))
  }

  ghost predicate HasKind(attendants: seq<Attendant>, kind: Kind) {
    exists a :: 0 <= a < |attendants| && attendants[a].kind == kind
  }

  /** Each kind has an attendant. */
  ghost predicate Staffed(s: State) {
    HasKind(s.attendants, Pickup) && HasKind(s.attendants, Automobile)
  }

  function OwnerCost(k: Owner): nat {
    match k
    case Away => 0
    case Unlocks => 1
    case WaitsDone(_) => 2
    case Posts(_) => 12
    case PutsIn(_) => 13
    case WaitsSlot(_) => 14
  }

  function AttendantCost(x: Attendant): nat {
    match x.at
    case AwaitsNew => 0
    case SweepsAutomobiles(_) => 1
    case SweepsPickups => 2
    case PostsDone => 3
    case PostsCharge => 4
    case Parks(_) => 5
    case PostsFree(_) => 6
    case TakesOut => 7
    case AwaitsCharge => 8
  }

  function Work(s: State): nat {
    Sum(s.owners, OwnerCost) + Sum(s.attendants, AttendantCost)
    + 9 * (s.gate.pickup.arrived + s.gate.automobile.arrived)
  }

  lemma StepCosts(s: State, a: Action)
    requires Enabled(s, a) && NoArrival(a)
    ensures Work(Do(s, a)) < Work(s)
  {
    match a
    case OwnerStep(p) =>
      SumUpdate(s.owners, p, OwnerNext(s.owners[p]), OwnerCost);
      match s.owners[p] {
        case WaitsSlot(_) =>
        case PutsIn(_) =>
        case Posts(_) =>
        case WaitsDone(_) =>
        case Unlocks =>
      }
    case AttendantStep(b, now) =>
      var x := s.attendants[b];
      SumUpdate(s.attendants, b, x.(at := AttendantNext(s.gate, x.at, now)), AttendantCost);
      match x.at {
        case AwaitsNew =>
        case AwaitsCharge =>
        case TakesOut =>
        case PostsFree(_) =>
        case Parks(_) =>
        case PostsCharge =>
        case PostsDone =>
        case SweepsPickups =>
        case SweepsAutomobiles(_) =>
      }
  }

  lemma StuckToken(s: State, tok: Token)
    requires TokenOk(s, tok) && Stuck(s) && Staffed(s)
    ensures tok == Nobody
  {
    match tok
    case Nobody =>
    case Owns(o) =>
      match s.owners[o] {
        case WaitsSlot(_) =>
        case PutsIn(_) =>
        case Posts(_) =>
        case WaitsDone(v) => SomeoneTakesUp(s, o, v);
        case Unlocks =>
      }
    case Served(o, a) =>
      ServesIsEnabled(s.gate, s.owners[o].v, s.attendants[a]);
  }

  lemma SomeoneTakesUp(s: State, o: nat, v: Vehicle)
    requires TokenOk(s, Owns(o)) && s.owners[o] == WaitsDone(v) && Staffed(s)
    ensures !Stuck(s)
  {
    assert HasKind(s.attendants, v.kind);
    var a :| 0 <= a < |s.attendants| && s.attendants[a].kind == v.kind;
    if SemsOf(s.gate, v.kind).done > 0 {
      assert OwnerEnabled(s.gate, s.owners[o]);
    } else {
      assert AttendantEnabled(s.gate, s.attendants[a]);
    }
  }

  lemma {:induction false} RunKeeps(s: State, acts: seq<Action>)
    requires Exec(Step, s, acts).Some? && Staffed(s)
    ensures Staffed(Exec(Step, s, acts).value)
    decreases |acts|
  {
    if acts != [] {
      StepStaffed(s, acts[0]);
      RunKeeps(Do(s, acts[0]), acts[1..]);
    }
  }

  lemma StepStaffed(s: State, a: Action)
    requires Enabled(s, a) && Staffed(s)
    ensures Staffed(Do(s, a))
  {
    StillHasKind(s, a, Pickup);
    StillHasKind(s, a, Automobile);
  }

  lemma StillHasKind(s: State, a: Action, kind: Kind)
    requires Enabled(s, a) && HasKind(s.attendants, kind)
    ensures HasKind(Do(s, a).attendants, kind)
  {
    var b :| 0 <= b < |s.attendants| && s.attendants[b].kind == kind;
    assert Do(s, a).attendants[b].kind == kind;
  }

  /** No deadlock and no livelock: between arrivals the threads take at most `Work(s)` steps, and
      they can be stuck only when the lock is free, all owners are away, all attendants wait, and
      every vehicle that came is parked or was freed. */
  lemma EveryHandOffEnds(s: State, acts: seq<Action>)
    requires Reachable(s) && Staffed(s) && Exec(Step, s, acts).Some? && forall a :: a in acts ==> NoArrival(a)
    ensures |acts| <= Work(s)
    ensures var t := Exec(Step, s, acts).value;
            Stuck(t) ==>
              && t.gate.lockFree && QueueLength(t.gate) == 0 && t.gate.freeSlot == QUEUE_CAPACITY
              && t.gate.pickup == IDLE && t.gate.automobile == IDLE
              && (forall p :: 0 <= p < |t.owners| ==> t.owners[p].Away?)
              && (forall a :: 0 <= a < |t.attendants| ==> t.attendants[a].at.AwaitsNew?)
              && (forall w :: Taken(t.park, w) == One(w in t.issued))
  {
    hide Stuck, Staffed, Inv;
    var t := Exec(Step, s, acts).value;
    forall u, a | NoArrival(a) && Step(u, a).Some?
      ensures Work(Step(u, a).value) < Work(u)
    {
      StepCosts(u, a);
    }
    ExecBounded(Step, _ => true, NoArrival, Work, s, acts);
    RunKeeps(s, acts);
    RunReachable(s, acts);
    ReachableInv(t);
    if Stuck(t) {
      StuckIsRest(t);
    }
  }

  lemma RunReachable(s: State, acts: seq<Action>)
    requires Reachable(s) && Exec(Step, s, acts).Some?
    ensures Reachable(Exec(Step, s, acts).value)
  {
    var owners: nat, kinds: seq<Kind> :| Reaches(Step, Init(owners, kinds), s);
    ReachesRun(Step, Init(owners, kinds), s, acts);
  }

  lemma StuckIsRest(t: State)
    requires Inv(t) && Stuck(t) && Staffed(t)
    ensures t.gate.lockFree && QueueLength(t.gate) == 0 && t.gate.freeSlot == QUEUE_CAPACITY
    ensures t.gate.pickup == IDLE && t.gate.automobile == IDLE
    ensures forall p :: 0 <= p < |t.owners| ==> t.owners[p].Away?
    ensures forall a :: 0 <= a < |t.attendants| ==> t.attendants[a].at.AwaitsNew?
    ensures forall w :: Taken(t.park, w) == One(w in t.issued)
  {
    var tok :| InvFor(t, tok);
    StuckToken(t, tok);
    hide ParkOk, Staffed;
    forall w ensures Taken(t.park, w) == One(w in t.issued) {
      IssuedOnce(t, w);
    }
    forall a | 0 <= a < |t.attendants| ensures t.attendants[a].at.AwaitsNew? {
      assert !AttendantEnabled(t.gate, t.attendants[a]);
    }
  }
}
