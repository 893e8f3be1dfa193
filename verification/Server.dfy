// The admission loop of MidtermProject/server.c: a bounded pool of children, a wait queue and
// a SIGCHLD flag that coalesces exits and can be stale.

module Server {
  import opened Runs
  import opened PidList
  import opened WaitQueue

  /** A `struct client_info`.  `ticket` is not a field of it: it is the place of the request in
      the order in which the server read them, and tells requests apart. */
  datatype Client = Client(pid: int, wait: bool, cwd: string, ticket: nat)

  /** Where the main loop stands.  The comments give the line of server.c that comes next. */
  datatype Phase =
    | AtRead     // 140
    | AtFlag     // 208
    | Reaping    // 213
    | AtQueue    // 221
    | Halted     // the queue returned a slot that holds no client

  datatype State = State(
    phase: Phase, sigchild: bool,
    capacity: int, pids: seq<int>,  // processArray
    queue: Queue<Client>,           // processQueue
    clientId: nat,
    running: set<int>,              // the children that run
    zombies: set<int>,              // the children that have exited and were not waited for
    requests: nat,                  // how many requests were read
    served: seq<nat>,               // the tickets of the clients that got a child, in that order
    refused: seq<nat>)              // the tickets of the clients that would not wait

  datatype Action =
    | NoRequest                                               // read returned -1
    | ShortRequest                                            // read returned less than a request
    | Request(pid: int, wait: bool, cwd: string, child: int)  // `child` is the pid fork would return
    | TestFlag
    | Reap(child: int)                                        // waitpid returned `child`
    | ReapedAll                                               // waitpid returned 0 or -1
    | TakeWaiting(child: int)
    | Exit(child: int)                                        // a child exits, at any time

  /** The state in which `main` enters the loop. */
  function Init(capacity: int): State {
    State(AtRead, false, capacity, [], Empty(), 0, {}, {}, 0, [], [])
  }

  /** Lines 157 and 164: the client gets a child at once. */
  predicate ServesAtOnce(s: State) {
    || (|s.pids| < s.capacity && s.queue.Size() == 0)
    || s.capacity + s.queue.Size() == 0
  }

  predicate Unused(s: State, child: int) {
    child !in s.running && child !in s.zombies
  }

  predicate Enabled(s: State, a: Action) {
    match a
    case NoRequest | ShortRequest => s.phase.AtRead?
    case Request(_, _, _, child) => s.phase.AtRead? && Unused(s, child)
    case TestFlag => s.phase.AtFlag?
    case Reap(child) => s.phase.Reaping? && child in s.zombies
    case ReapedAll => s.phase.Reaping? && s.zombies == {}
    case TakeWaiting(child) => s.phase.AtQueue? && Unused(s, child)
    case Exit(child) => child in s.running
  }

  /** The parent side of `createChildProcess`; the status of `add_pid_list` is ignored. */
  function WithChild(s: State, ticket: nat, child: int): State {
    s.(running := s.running + {child},
       pids := Added(s.pids, s.capacity, child),
       clientId := s.clientId + 1,
       served := s.served + [ticket])
  }

  function Admit(s: State, client: Client, child: int): State {
    if ServesAtOnce(s) then WithChild(s, client.ticket, child)
    else if client.wait then s.(queue := Enqueued(s.queue, client))
    else s.(refused := s.refused + [client.ticket])
  }

  function Do(s: State, a: Action): State
    requires Enabled(s, a)
  {
    match a
    case NoRequest => s.(phase := AtFlag)
    case ShortRequest => s
    case Request(pid, wait, cwd, child) =>
      Admit(s, Client(pid, wait, cwd, s.requests), child).(requests := s.requests + 1, phase := AtFlag)
    case TestFlag => s.(sigchild := false, phase := if s.sigchild then Reaping else AtRead)
    case Reap(child) => s.(zombies := s.zombies - {child}, pids := Removed(s.pids, child))
    case ReapedAll => s.(phase := AtQueue)
    case TakeWaiting(child) => (
      match Front(s.queue)
      case None => s.(phase := AtRead)
      case Some(Unset) => s.(phase := Halted)
      case Some(Item(client)) =>
        WithChild(s, client.ticket, child).(queue := Dequeued(s.queue), phase := AtRead))
    case Exit(child) => s.(running := s.running - {child}, zombies := s.zombies + {child}, sigchild := true)
  }

  function Step(s: State, a: Action): Option<State> {
    if Enabled(s, a) then Some(Do(s, a)) else None
  }

  // ------------------------------------------------------------------- the invariant

  function Waiting(s: State): nat { s.queue.Size() }

  function Free(s: State): int { s.capacity - |s.pids| }

  /** processArray lists every child that was not waited for, once. */
  ghost predicate PidsAreChildren(s: State) {
    && Distinct(s.pids)
    && Elements(s.pids) == s.running + s.zombies
    && s.running !! s.zombies
    && |s.pids| <= s.capacity
  }

  /** How the flag, the zombies, the free places and the wait queue hang together at each point
      of the loop.  A flag that is set with no zombie is stale. */
  predicate FlagOk(phase: Phase, flag: bool, zombies: nat, free: int, waiting: nat) {
    match phase
    case AtRead =>
      && (zombies > 0 ==> flag)
      && (flag && zombies == 0 ==> free >= 1)
    case AtFlag =>
      && (zombies > 0 ==> flag)
      && (flag && zombies == 0 ==> free >= 1 || waiting == 0)
    case Reaping =>
      && (free + zombies >= 1 || waiting == 0)
      && (flag ==> free + zombies >= (if waiting == 0 then 1 else 2))
    case AtQueue =>
      && (zombies > 0 ==> flag)
      && (free >= 1 || waiting == 0)
      && (flag && zombies == 0 ==> free >= (if waiting == 0 then 1 else 2))
    case Halted => true
  }

  predicate FlagInv(s: State) {
    FlagOk(s.phase, s.sigchild, |s.zombies|, Free(s), Waiting(s))
  }

  /** Outside a pass, a client waits only while some place is taken. */
  predicate SomeoneIsServed(s: State) {
    Waiting(s) > 0 && (s.phase.AtRead? || s.phase.AtFlag?) ==> |s.pids| > 0
  }

  function Tickets(clients: seq<Client>): seq<nat> {
    seq(|clients|, i requires 0 <= i < |clients| => clients[i].ticket)
  }

  ghost predicate Increasing(xs: seq<nat>, bound: nat) {
    && (forall i, j :: 0 <= i < j < |xs| ==> xs[i] < xs[j])
    && (forall i :: 0 <= i < |xs| ==> xs[i] < bound)
  }

  /** Clients are served in the order of their requests, and those that wait came after all that
      were served. */
  ghost predicate InOrder(s: State) {
    Increasing(s.served + Tickets(s.queue.live), s.requests)
  }

  /** Every request is accounted for, the lost ones by the phantoms of the queue. */
  predicate Accounted(s: State) {
    && s.queue.WellFormed()
    && s.requests == |s.served| + |s.queue.live| + |s.refused| + s.queue.phantoms
    && s.clientId == |s.served|
    && (s.phase.Halted? ==> s.queue.phantoms > 0)
    && s.queue.phantoms <= 1
    && (s.queue.phantoms == 0 ==> s.queue.capacity <= 1)
  }

  /** While no client was lost, every request was served, was refused or waits. */
  ghost predicate AllPlaced(s: State) {
    s.queue.phantoms == 0 ==>
      forall k :: 0 <= k < s.requests ==> k in s.served || k in s.refused || k in Tickets(s.queue.live)
  }

  /** While no client was lost, one waits only if all places are taken or an exit is pending. */
  predicate WaitsForAReason(s: State) {
    s.queue.phantoms == 0 && Waiting(s) > 0 && !s.sigchild && (s.phase.AtRead? || s.phase.AtFlag?)
    ==> |s.pids| == s.capacity
  }

  ghost predicate Inv(s: State) {
    && s.capacity >= 1
    && PidsAreChildren(s)
    && FlagInv(s)
    && SomeoneIsServed(s)
    && InOrder(s)
    && Accounted(s)
    && AllPlaced(s)
    && WaitsForAReason(s)
  }

  lemma {:induction false} DistinctSize(pids: seq<int>)
    requires Distinct(pids)
    ensures |Elements(pids)| == |pids|
  {
    if pids != [] {
      DistinctSize(pids[1..]);
      assert Elements(pids) == Elements(pids[1..]) + {pids[0]};
    }
  }

  /** In numbers: the children that run and the zombies fill the occupied places. */
  lemma PlacesTaken(s: State)
    requires PidsAreChildren(s)
    ensures |s.pids| == |s.running| + |s.zombies|
  {
    DistinctSize(s.pids);
  }

  /** Whether the step is one that forks. */
  predicate Forks(s: State, a: Action) {
    (a.Request? && ServesAtOnce(s)) || (a.TakeWaiting? && s.queue.live != [])
  }

  /** Every fork finds a free place, so `add_pid_list` never fails. */
  lemma ForkHasPlace(s: State, a: Action)
    requires s.capacity >= 1 && FlagInv(s) && Enabled(s, a) && Forks(s, a)
    ensures Free(s) >= 1
  {
  }

  lemma ForkKeepsPids(s: State, ticket: nat, child: int)
    requires PidsAreChildren(s) && Unused(s, child) && Free(s) >= 1
    ensures PidsAreChildren(WithChild(s, ticket, child))
    ensures |WithChild(s, ticket, child).pids| == |s.pids| + 1
  {
    assert child !in Elements(s.pids);
    AddedElements(s.pids, s.capacity, child);
  }

  lemma ReapKeepsPids(s: State, child: int)
    requires PidsAreChildren(s) && Enabled(s, Reap(child))
    ensures PidsAreChildren(Do(s, Reap(child))) && PlacesMove(s, Reap(child), Do(s, Reap(child)))
  {
    assert child in Elements(s.pids);
    RemovedElements(s.pids, child);
  }

  lemma ForkStepKeepsPids(s: State, a: Action)
    requires PidsAreChildren(s) && FlagInv(s) && s.capacity >= 1 && Enabled(s, a) && Forks(s, a)
    ensures PidsAreChildren(Do(s, a)) && PlacesMove(s, a, Do(s, a))
  {
    ForkHasPlace(s, a);
    ForkKeepsPids(s, if a.Request? then s.requests else s.queue.live[0].ticket, a.child);
  }

  /** How many places and zombies a step adds and removes. */
  predicate PlacesMove(s: State, a: Action, t: State) {
    && |t.pids| == |s.pids| + (if Forks(s, a) then 1 else 0) - (if a.Reap? then 1 else 0)
    && |t.zombies| == |s.zombies| + (if a.Exit? then 1 else 0) - (if a.Reap? then 1 else 0)
  }

  lemma ExitKeepsPids(s: State, child: int)
    requires PidsAreChildren(s) && Enabled(s, Exit(child))
    ensures PidsAreChildren(Do(s, Exit(child))) && PlacesMove(s, Exit(child), Do(s, Exit(child)))
  {
    assert Do(s, Exit(child)).running + Do(s, Exit(child)).zombies == s.running + s.zombies;
  }

  lemma OtherStepsMoveNoChild(s: State, a: Action)
    requires Enabled(s, a) && !Forks(s, a) && !a.Reap? && !a.Exit?
    ensures var t := Do(s, a);
            t.pids == s.pids && t.running == s.running && t.zombies == s.zombies && t.capacity == s.capacity
  {
  }

  lemma StepKeepsPids(s: State, a: Action)
    requires PidsAreChildren(s) && FlagInv(s) && s.capacity >= 1 && Enabled(s, a)
    ensures PidsAreChildren(Do(s, a)) && PlacesMove(s, a, Do(s, a))
  {
    if Forks(s, a) {
      ForkStepKeepsPids(s, a);
    } else if a.Reap? {
      ReapKeepsPids(s, a.child);
    } else if a.Exit? {
      ExitKeepsPids(s, a.child);
    } else {
      OtherStepsMoveNoChild(s, a);
    }
  }

  predicate NumbersOk(s: State) {
    && s.capacity >= 1 && |s.pids| <= s.capacity
    && FlagInv(s) && SomeoneIsServed(s) && WaitsForAReason(s) && Accounted(s)
  }

  lemma RequestKeepsFlag(s: State, a: Action)
    requires NumbersOk(s) && Enabled(s, a) && a.Request? && PlacesMove(s, a, Do(s, a))
    ensures FlagInv(Do(s, a)) && SomeoneIsServed(Do(s, a)) && WaitsForAReason(Do(s, a))
  {
    if !ServesAtOnce(s) && a.wait {
      QueueStaysWellFormed(s.queue, Client(a.pid, a.wait, a.cwd, s.requests));
    }
  }

  lemma StepKeepsFlag(s: State, a: Action)
    requires NumbersOk(s) && Enabled(s, a) && PlacesMove(s, a, Do(s, a))
    ensures FlagInv(Do(s, a)) && SomeoneIsServed(Do(s, a)) && WaitsForAReason(Do(s, a))
  {
    if a.Request? {
      RequestKeepsFlag(s, a);
    }
  }

  lemma RequestKeepsOrder(s: State, a: Action)
    requires s.capacity >= 1 && InOrder(s) && Enabled(s, a) && a.Request?
    ensures InOrder(Do(s, a))
  {
    var t := Do(s, a);
    var before := s.served + Tickets(s.queue.live);
    if !ServesAtOnce(s) && !a.wait {
      assert t.served + Tickets(t.queue.live) == before;
    } else if !ServesAtOnce(s) && s.queue.FullOfClients() {
      assert t.served + Tickets(t.queue.live) == before[..|s.served|] + [s.requests];
    } else {
      assert t.served + Tickets(t.queue.live) == before + [s.requests];
    }
  }

  lemma RequestIsAccounted(s: State, a: Action)
    requires Accounted(s) && Enabled(s, a) && a.Request?
    ensures Accounted(Do(s, a))
  {
  }

  lemma TakeWaitingKeepsOrder(s: State, child: int)
    requires InOrder(s) && Accounted(s) && Enabled(s, TakeWaiting(child))
    ensures InOrder(Do(s, TakeWaiting(child))) && Accounted(Do(s, TakeWaiting(child)))
  {
    var t := Do(s, TakeWaiting(child));
    assert t.served + Tickets(t.queue.live) == s.served + Tickets(s.queue.live);
  }

  lemma StepKeepsOrder(s: State, a: Action)
    requires s.capacity >= 1 && InOrder(s) && Accounted(s) && Enabled(s, a)
    ensures InOrder(Do(s, a)) && Accounted(Do(s, a))
  {
    if a.Request? {
      RequestKeepsOrder(s, a);
      RequestIsAccounted(s, a);
    } else if a.TakeWaiting? {
      TakeWaitingKeepsOrder(s, a.child);
    } else {
      assert Do(s, a).queue == s.queue && Do(s, a).served == s.served;
    }
  }

  lemma RequestIsPlaced(s: State, a: Action)
    requires AllPlaced(s) && Accounted(s) && Enabled(s, a) && a.Request?
    ensures AllPlaced(Do(s, a))
  {
    var t := Do(s, a);
    assert ServesAtOnce(s) ==> t.served[|s.served|] == s.requests;
    assert !ServesAtOnce(s) && !a.wait ==> t.refused[|s.refused|] == s.requests;
    assert !ServesAtOnce(s) && a.wait && !s.queue.FullOfClients() ==>
      Tickets(t.queue.live) == Tickets(s.queue.live) + [s.requests];
  }

  lemma TakeWaitingIsPlaced(s: State, child: int)
    requires AllPlaced(s) && Accounted(s) && Enabled(s, TakeWaiting(child))
    ensures AllPlaced(Do(s, TakeWaiting(child)))
  {
    if s.queue.live != [] {
      assert Tickets(s.queue.live) == [s.queue.live[0].ticket] + Tickets(s.queue.live[1..]);
    }
  }

  lemma StepKeepsPlaced(s: State, a: Action)
    requires AllPlaced(s) && Accounted(s) && Enabled(s, a)
    ensures AllPlaced(Do(s, a))
  {
    if a.Request? {
      RequestIsPlaced(s, a);
    } else if a.TakeWaiting? {
      TakeWaitingIsPlaced(s, a.child);
    }
  }

  lemma StepKeepsInv(s: State, a: Action)
    requires Inv(s) && Enabled(s, a)
    ensures Inv(Do(s, a))
  {
    StepKeepsPids(s, a);
    StepKeepsFlag(s, a);
    StepKeepsOrder(s, a);
    StepKeepsPlaced(s, a);
  }

  // ------------------------------------------------------------ what every run guarantees

  /** Some run of a server started with `s.capacity` places leads to `s`. */
  ghost predicate Reachable(s: State) {
    exists capacity :: capacity >= 1 && Reaches(Step, Init(capacity), s)
  }

  lemma InitInv(capacity: int)
    requires capacity >= 1
    ensures Inv(Init(capacity))
  {
  }

  lemma ReachableInv(s: State)
    requires Reachable(s)
    ensures Inv(s)
  {
    hide Inv;
    var capacity :| capacity >= 1 && Reaches(Step, Init(capacity), s);
    InitInv(capacity);
    forall t, a | Inv(t) && Step(t, a).Some?
      ensures Inv(Step(t, a).value)
    {
      StepKeepsInv(t, a);
    }
    ReachesKeeps(Step, Inv, Init(capacity), s);
  }

  /** Every child has its place in processArray, and there are no more than it may hold. */
  ghost predicate WithinCapacity(s: State) {
    && Elements(s.pids) == s.running + s.zombies
    && |s.running| + |s.zombies| <= (if s.capacity < 0 then 0 else s.capacity)
  }

  /** A server without children at which `k` clients wait. */
  ghost predicate OnlyWaiters(capacity: int, k: nat, s: State) {
    && Reaches(Step, Init(capacity), s)
    && s.phase.AtRead? && !s.sigchild && s.capacity == capacity && s.pids == [] && s.running == s.zombies == {}
    && s.queue.WellFormed() && s.queue.Size() == k
  }

  /** A server with no place to give lets its first clients wait, until the number that it tells
      them happens to be 0. */
  lemma {:induction false} NoPlace(capacity: int, k: nat) returns (s: State)
    requires capacity + k <= 0
    ensures OnlyWaiters(capacity, k, s)
  {
    if k == 0 {
      s := Init(capacity);
      ReachesSelf(Step, s);
    } else {
      var r := NoPlace(capacity, k - 1);
      var a := Request(1, true, "", 2);
      QueueStaysWellFormed(r.queue, Client(1, true, "", r.requests));
      ReachesStep(Step, Init(capacity), r, a);
      ReachesStep(Step, Init(capacity), Do(r, a), TestFlag);
      s := Do(Do(r, a), TestFlag);
    }
  }

  /** With at least one place, the pool is never exceeded, although a client is taken from the
      queue without a look at the capacity and although the flag can be stale.  With none it is,
      as soon as the number of the next client in turn comes to 0. */
  lemma AdmissionBoundIff(capacity: int)
    ensures (forall s :: Reaches(Step, Init(capacity), s) ==> WithinCapacity(s)) <==> capacity >= 1
  {
    if capacity >= 1 {
      forall s | Reaches(Step, Init(capacity), s)
        ensures WithinCapacity(s)
      {
        ReachableInv(s);
        PlacesTaken(s);
      }
    } else {
      var a := Request(1, true, "", 2);
      var s := NoPlace(capacity, -capacity);
      ReachesStep(Step, Init(capacity), s, a);
      assert Do(s, a).running == {2};
      assert !WithinCapacity(Do(s, a));
    }
  }

  // A SIGCHLD without an exit.

  /** The flag is set although no child has exited, as when a child is stopped or continued: the
      handler is installed without SA_NOCLDSTOP. */
  function Signalled(s: State): State {
    s.(sigchild := true)
  }

  /** The pool stays within its bound in every run from `s`. */
  ghost predicate BoundHoldsFrom(s: State) {
    forall acts :: Exec(Step, s, acts).Some? ==> WithinCapacity(Exec(Step, s, acts).value)
  }

  lemma InvBounds(s: State)
    requires Inv(s)
    ensures BoundHoldsFrom(s)
  {
    hide Inv, WithinCapacity;
    forall acts | Exec(Step, s, acts).Some?
      ensures WithinCapacity(Exec(Step, s, acts).value)
    {
      forall t, a | Inv(t) && Step(t, a).Some?
        ensures Inv(Step(t, a).value)
      {
        StepKeepsInv(t, a);
      }
      ExecKeeps(Step, Inv, s, acts);
      InvWithin(Exec(Step, s, acts).value);
    }
  }

  lemma InvWithin(s: State)
    requires Inv(s)
    ensures WithinCapacity(s)
  {
    hide FlagInv, SomeoneIsServed, InOrder, Accounted, AllPlaced, WaitsForAReason;
    PlacesTaken(s);
  }

  /** With a place free, the flag does no harm; it is as if a child had come and gone. */
  lemma SignalKeepsInv(s: State)
    requires Inv(s) && s.phase.AtRead? && (s.sigchild || |s.running| < s.capacity)
    ensures Inv(Signalled(s))
  {
    PlacesTaken(s);
    if s.sigchild {
      assert Signalled(s) == s;
    } else {
      var t := Signalled(s);
      assert PidsAreChildren(t) && InOrder(t) && AllPlaced(t) && Accounted(t);
    }
  }

  /** With none free, a client that comes to wait is taken in at once by the pass of the flag. */
  lemma SignalOverfills(s: State)
    requires Inv(s) && s.phase.AtRead? && !s.sigchild && |s.running| >= s.capacity
    ensures !BoundHoldsFrom(Signalled(s))
  {
    PlacesTaken(s);
    hide InOrder, AllPlaced, SomeoneIsServed, WaitsForAReason;
    assert s.zombies == {};
    var child := SomeUnused(s.running);
    var s0 := Signalled(s);
    assert Unused(s0, child);
    var a1, a4 := Request(1, true, "", child), TakeWaiting(child);
    var s1 := Do(s0, a1);
    assert s1.running == s.running && s1.zombies == {} && s1.queue.live != [];
    var s2 := Do(s1, TestFlag);
    var s3 := Do(s2, ReapedAll);
    var s4 := Do(s3, a4);
    hide Inv, Enabled, Do, Admit;
    FourSteps(s0, a1, s1, TestFlag, s2, ReapedAll, s3, a4, s4);
    Overfilled(s, s4, child);
  }

  lemma Overfilled(s: State, t: State, child: int)
    requires t.running == s.running + {child} && child !in s.running && t.zombies == {} && t.capacity == s.capacity
    requires s.capacity >= 1 && |s.running| >= s.capacity
    ensures !WithinCapacity(t)
  {
  }

  lemma FourSteps(s0: State, a1: Action, s1: State, a2: Action, s2: State, a3: Action, s3: State, a4: Action, s4: State)
    requires Step(s0, a1) == Some(s1) && Step(s1, a2) == Some(s2)
    requires Step(s2, a3) == Some(s3) && Step(s3, a4) == Some(s4)
    ensures exists acts :: Exec(Step, s0, acts) == Some(s4)
  {
    hide Step;
    ReachesSelf(Step, s0);
    ReachesStep(Step, s0, s0, a1);
    ReachesStep(Step, s0, s1, a2);
    ReachesStep(Step, s0, s2, a3);
    ReachesStep(Step, s0, s3, a4);
  }

  /** The pool bound rests on SIGCHLD coming from exits only.  One that comes from elsewhere while
      the server reads is harmless if and only if the flag was set anyhow or a place is free. */
  lemma StrayFlagIff(s: State)
    requires Reachable(s) && s.phase.AtRead?
    ensures BoundHoldsFrom(Signalled(s)) <==> s.sigchild || |s.running| < s.capacity
  {
    ReachableInv(s);
    if s.sigchild || |s.running| < s.capacity {
      SignalKeepsInv(s);
      InvBounds(Signalled(s));
    } else {
      SignalOverfills(s);
    }
  }

  /** A server that reads, with `k` children that run and nobody waiting. */
  ghost predicate OnlyServes(capacity: int, k: nat, s: State) {
    && Reaches(Step, Init(capacity), s) && s.phase.AtRead? && !s.sigchild && s.capacity == capacity
    && |s.pids| == |s.running| == k && s.zombies == {} && s.queue.Size() == 0
  }

  lemma OneMoreChild(s: State, capacity: int, k: nat) returns (t: State)
    requires OnlyServes(capacity, k, s) && k < capacity
    ensures OnlyServes(capacity, k + 1, t)
  {
    var child := SomeUnused(s.running);
    assert Unused(s, child);
    var a := Request(1, true, "", child);
    ReachesStep(Step, Init(capacity), s, a);
    ReachesStep(Step, Init(capacity), Do(s, a), TestFlag);
    t := Do(Do(s, a), TestFlag);
    assert t.running == s.running + {child};
  }

  lemma {:induction false} FillUp(capacity: int, k: nat) returns (s: State)
    requires k <= capacity
    ensures OnlyServes(capacity, k, s)
  {
    if k == 0 {
      s := Init(capacity);
      ReachesSelf(Step, s);
    } else {
      hide OnlyServes;
      var r := FillUp(capacity, k - 1);
      s := OneMoreChild(r, capacity, k - 1);
    }
  }

  /** So with any capacity there is a time at which such a signal takes the pool past its bound. */
  lemma StrayFlagBreaksBound(capacity: int)
    requires capacity >= 1
    ensures exists s :: Reachable(s) && s.capacity == capacity && s.phase.AtRead? && !BoundHoldsFrom(Signalled(s))
  {
    hide BoundHoldsFrom;
    var s := FillUp(capacity, capacity);
    StrayFlagIff(s);
  }

  /** A client never waits for nothing: some child runs, or an exit is about to be handled. */
  lemma NoStrandedWaiter(s: State)
    requires Reachable(s) && s.phase.AtRead? && Waiting(s) > 0
    ensures s.running != {} || (s.zombies != {} && s.sigchild)
    ensures s.queue.phantoms == 0 && !s.sigchild ==> |s.running| == s.capacity
  {
    ReachableInv(s);
    PlacesTaken(s);
  }

  predicate InPass(s: State) {
    s.phase.Reaping? || s.phase.AtQueue?
  }

  /** Every state of the run from `s` but the last is inside the handling of the flag. */
  predicate StaysInPass(s: State, acts: seq<Action>)
    requires Exec(Step, s, acts).Some?
    decreases |acts|
  {
    acts == [] || (InPass(s) && StaysInPass(Do(s, acts[0]), acts[1..]))
  }

  /** However exits and waits interleave, a pass that finds a client waiting serves the one that
      waited longest, and no other. */
  lemma {:induction false} PassServesFirstWaiter(s: State, acts: seq<Action>)
    requires InPass(s) && s.queue.live != []
    requires Exec(Step, s, acts).Some? && StaysInPass(s, acts)
    ensures var t := Exec(Step, s, acts).value;
            if InPass(t) then t.served == s.served && t.queue == s.queue
            else t.phase.AtRead? && t.served == s.served + [s.queue.live[0].ticket] && t.queue == Dequeued(s.queue)
    decreases |acts|
  {
    if acts != [] {
      var t := Do(s, acts[0]);
      if InPass(t) {
        PassServesFirstWaiter(t, acts[1..]);
      } else {
        assert acts[0].TakeWaiting?;
        assert acts[1..] == [];
      }
    }
  }

  /** The handling of the flag ends with one look at the queue, after which the server reads again,
      whether or not somebody waited; and it does not end before all children that have exited are
      waited for. */
  lemma PassEndsInReading(s: State, a: Action)
    requires Enabled(s, a) && InPass(s) && !InPass(Do(s, a))
    ensures a.TakeWaiting? && s.phase.AtQueue?
    ensures Do(s, a).phase == if s.queue.Size() > 0 && s.queue.live == [] then Halted else AtRead
    ensures s.queue.Size() == 0 ==> Do(s, a) == s.(phase := AtRead)
  {
  }

  lemma QueueAfterAllReaped(s: State, a: Action)
    requires Enabled(s, a) && s.phase.Reaping? && Do(s, a).phase.AtQueue?
    ensures s.zombies == {} && Do(s, a) == s.(phase := AtQueue)
  {
  }

  /** How long the handling of the flag can last: a child that exits meanwhile is reaped, and no
      child is forked before the end. */
  function PassWork(s: State): nat {
    2 * |s.running| + |s.zombies| + if s.phase.Reaping? then 2 else if s.phase.AtQueue? then 1 else 0
  }

  /** A pass comes to an end, whatever exits interleave. */
  lemma {:induction false} PassEnds(s: State, acts: seq<Action>)
    requires Exec(Step, s, acts).Some? && StaysInPass(s, acts)
    ensures |acts| <= PassWork(s)
    decreases |acts|
  {
    if acts != [] {
      var a, t := acts[0], Do(s, acts[0]);
      if a.TakeWaiting? {
        assert acts[1..] == [];
      } else {
        if a.Exit? {
          assert |t.zombies| <= |s.zombies| + 1;
        }
        PassEnds(t, acts[1..]);
      }
    }
  }

  /** How often a run looks at the queue, at the end of a pass. */
  function Passes(acts: seq<Action>): nat
    decreases |acts|
  {
    if acts == [] then 0 else (if acts[0].TakeWaiting? then 1 else 0) + Passes(acts[1..])
  }

  /** A step serves clients, and never takes one back. */
  lemma ServedStays(s: State, a: Action)
    requires Enabled(s, a)
    ensures s.served <= Do(s, a).served && Do(s, a).queue.phantoms >= s.queue.phantoms
  {
  }

  lemma {:induction false} RunServesMore(s: State, acts: seq<Action>)
    requires Exec(Step, s, acts).Some?
    ensures var t := Exec(Step, s, acts).value;
            s.served <= t.served && t.queue.phantoms >= s.queue.phantoms
    decreases |acts|
  {
    if acts != [] {
      ServedStays(s, acts[0]);
      RunServesMore(Do(s, acts[0]), acts[1..]);
    }
  }

  /** While no client was lost, the ring has room for at most one. */
  predicate TidyQueue(s: State) {
    s.capacity >= 1 && s.queue.WellFormed() && (s.queue.phantoms == 0 ==> s.queue.capacity <= 1)
  }

  lemma QueueIsTidy(s: State)
    requires Reachable(s)
    ensures TidyQueue(s)
  {
    ReachableInv(s);
    hide PidsAreChildren, FlagInv, SomeoneIsServed, InOrder, AllPlaced, WaitsForAReason;
  }

  /** What a step that loses no client does to the one at place `i` of the queue. */
  lemma MovesUp(s: State, a: Action, i: nat)
    requires TidyQueue(s) && Enabled(s, a) && i < |s.queue.live|
    requires Do(s, a).queue.phantoms == s.queue.phantoms
    ensures var t := Do(s, a);
            if !a.TakeWaiting? then i < |t.queue.live| && t.queue.live[i] == s.queue.live[i]
            else if i == 0 then s.queue.live[0].ticket in t.served
            else i <= |t.queue.live| && t.queue.live[i - 1] == s.queue.live[i]
  {
    if a.TakeWaiting? && i == 0 {
      assert Do(s, a).served[|s.served|] == s.queue.live[0].ticket;
    }
  }

  /** A client that waits with `i` others before it is served by the end of the pass number
      `i + 1`, in any run that loses no client. */
  lemma {:induction false} WaiterIsServed(s: State, acts: seq<Action>, i: nat)
    requires Reachable(s) && i < |s.queue.live|
    requires Exec(Step, s, acts).Some? && Passes(acts) > i
    requires Exec(Step, s, acts).value.queue.phantoms == s.queue.phantoms
    ensures s.queue.live[i].ticket in Exec(Step, s, acts).value.served
    decreases |acts|
  {
    var a, t := acts[0], Do(s, acts[0]);
    hide Reachable, Enabled, Do;
    StepReachable(s, a);
    ServedStays(s, a);
    RunServesMore(t, acts[1..]);
    QueueIsTidy(s);
    MovesUp(s, a, i);
    if !a.TakeWaiting? {
      WaiterIsServed(t, acts[1..], i);
    } else if i > 0 {
      WaiterIsServed(t, acts[1..], i - 1);
    }
  }

  lemma StepReachable(s: State, a: Action)
    requires Reachable(s) && Enabled(s, a)
    ensures Reachable(Do(s, a))
  {
    var capacity :| capacity >= 1 && Reaches(Step, Init(capacity), s);
    ReachesStep(Step, Init(capacity), s, a);
  }

  /** No client is served before one that asked earlier and is still to be served. */
  lemma ServedInOrderOfRequest(s: State)
    requires Reachable(s)
    ensures forall i, j :: 0 <= i < j < |s.served| ==> s.served[i] < s.served[j]
    ensures forall i, j :: 0 <= i < |s.served| && 0 <= j < |s.queue.live| ==> s.served[i] < s.queue.live[j].ticket
  {
    ReachableInv(s);
    var all := s.served + Tickets(s.queue.live);
    assert forall i :: 0 <= i < |s.served| ==> s.served[i] == all[i];
    assert forall j :: 0 <= j < |s.queue.live| ==> s.queue.live[j].ticket == all[|s.served| + j];
  }

  /** Exactly as many requests are lost as the queue has phantoms: none or one. */
  lemma LostRequestsArePhantoms(s: State)
    requires Reachable(s)
    ensures s.requests - (|s.served| + |s.queue.live| + |s.refused|) == s.queue.phantoms <= 1
    ensures s.queue.phantoms == 0 ==>
              forall k :: 0 <= k < s.requests ==> k in s.served || k in s.refused || k in Tickets(s.queue.live)
    ensures s.phase.Halted? ==> s.queue.phantoms > 0
  {
    ReachableInv(s);
  }

  /** The first client is lost exactly when one starts to wait while another one waits; what is
      lost stays lost. */
  lemma ClientIsLostIff(s: State, a: Action)
    requires Reachable(s) && Enabled(s, a)
    ensures s.queue.phantoms == 0 ==>
              (Do(s, a).queue.phantoms > 0 <==> a.Request? && a.wait && !ServesAtOnce(s) && s.queue.live != [])
    ensures Do(s, a).queue.phantoms >= s.queue.phantoms
  {
    QueueIsTidy(s);
    hide Reachable;
    if a.Request? && a.wait && !ServesAtOnce(s) {
      EnqueueIsFifoIff(s.queue, Client(a.pid, a.wait, a.cwd, s.requests));
    }
  }

  /** A step serves at most one client, and the number that its child gets is its place in the
      order of service; so no two children get the same one. */
  lemma EveryChildItsNumber(s: State, a: Action)
    requires Reachable(s) && Enabled(s, a)
    ensures var t := Do(s, a);
            && s.clientId == |s.served| && t.clientId == |t.served|
            && (t.served == s.served || (|t.served| == s.clientId + 1 && t.served[s.clientId] == ServedBy(s, a)))
  {
    StepReachable(s, a);
    NumbersAreServed(s);
    NumbersAreServed(Do(s, a));
    hide Reachable;
  }

  lemma NumbersAreServed(s: State)
    requires Reachable(s)
    ensures s.clientId == |s.served|
  {
    ReachableInv(s);
    hide PidsAreChildren, FlagInv, SomeoneIsServed, InOrder, AllPlaced, WaitsForAReason;
  }

  /** Whom a step serves, if anybody. */
  function ServedBy(s: State, a: Action): nat {
    if a.TakeWaiting? && s.queue.live != [] then s.queue.live[0].ticket else s.requests
  }

  function AskedBy(s: State, a: Action): seq<Client> {
    if a.Request? then [Client(a.pid, a.wait, a.cwd, s.requests)] else []
  }

  /** The requests of a run, as they were read. */
  function Asked(s: State, acts: seq<Action>): seq<Client>
    requires Exec(Step, s, acts).Some?
    decreases |acts|
  {
    if acts == [] then [] else AskedBy(s, acts[0]) + Asked(Do(s, acts[0]), acts[1..])
  }

  /** Every client that waits is, word for word, the request that has its ticket. */
  ghost predicate QueueHolds(s: State, asked: seq<Client>) {
    && |asked| == s.requests
    && forall c :: c in s.queue.live ==> c.ticket < |asked| && c == asked[c.ticket] && c.wait
  }

  lemma StepHolds(s: State, a: Action, asked: seq<Client>)
    requires QueueHolds(s, asked) && Enabled(s, a)
    ensures QueueHolds(Do(s, a), asked + AskedBy(s, a))
  {
    var more := asked + AskedBy(s, a);
    QueueOfStep(s, a);
    hide Do, Enabled;
    forall c | c in Do(s, a).queue.live ensures c.ticket < |more| && c == more[c.ticket] && c.wait {
      if c in s.queue.live {
        assert c == asked[c.ticket];
      }
    }
  }

  /** Who waits after a step has waited before or is the client that asks. */
  lemma QueueOfStep(s: State, a: Action)
    requires Enabled(s, a)
    ensures Do(s, a).requests == s.requests + if a.Request? then 1 else 0
    ensures forall c :: c in Do(s, a).queue.live ==>
      c in s.queue.live || (a.Request? && a.wait && c == Client(a.pid, a.wait, a.cwd, s.requests))
  {
  }

  lemma {:induction false} RunHolds(s: State, acts: seq<Action>, asked: seq<Client>)
    requires QueueHolds(s, asked) && Exec(Step, s, acts).Some?
    ensures QueueHolds(Exec(Step, s, acts).value, asked + Asked(s, acts))
    decreases |acts|
  {
    hide Do, Enabled, QueueHolds, AskedBy;
    if acts == [] {
      assert asked + [] == asked;
    } else {
      var a, t := acts[0], Do(s, acts[0]);
      StepHolds(s, a, asked);
      RunHolds(t, acts[1..], asked + AskedBy(s, a));
      assert asked + (AskedBy(s, a) + Asked(t, acts[1..])) == (asked + AskedBy(s, a)) + Asked(t, acts[1..]);
    }
  }

  /** Along any run of a server, a client that waits is kept with the pid and the directory that it
      asked with, and only clients that asked to wait do. */
  lemma WaitersKeepTheirRequest(capacity: int, acts: seq<Action>)
    requires Exec(Step, Init(capacity), acts).Some?
    ensures QueueHolds(Exec(Step, Init(capacity), acts).value, Asked(Init(capacity), acts))
  {
    RunHolds(Init(capacity), acts, []);
    assert [] + Asked(Init(capacity), acts) == Asked(Init(capacity), acts);
  }

  /** A request that was not read whole is discarded, and the server goes back to reading at once;
      when there is nothing to read, it looks at the flag. */
  lemma DiscardsShortRequests(s: State)
    requires s.phase.AtRead?
    ensures Step(s, ShortRequest) == Some(s)
    ensures Step(s, NoRequest) == Some(s.(phase := AtFlag))
  {
  }

  // A run with one place and three clients that would all wait.

  function Asks(ticket: nat): Action { Request(10 + ticket, true, "", 100 + ticket) }
  function Waits(ticket: nat): Client { Client(10 + ticket, true, "", ticket) }

  /** The first client is served and the other two wait: the second one is forgotten. */
  function OneForgotten(): State {
    State(AtRead, false, 1, [100], Queue([Waits(2)], 1, 2), 1, {100}, {}, 3, [0], [])
  }

  lemma SecondWaiterIsForgotten()
    ensures Reachable(OneForgotten())
  {
    var s0 := Init(1);
    ReachesSelf(Step, s0);
    ReachesStep(Step, s0, s0, Asks(0));
    var s1 := Do(s0, Asks(0));
    assert s1 == State(AtFlag, false, 1, [100], Empty(), 1, {100}, {}, 1, [0], []);
    ReachesStep(Step, s0, s1, TestFlag);
    var s2 := Do(s1, TestFlag);
    ReachesStep(Step, s0, s2, Asks(1));
    var s3 := Do(s2, Asks(1));
    assert s3 == State(AtFlag, false, 1, [100], Queue([Waits(1)], 0, 1), 1, {100}, {}, 2, [0], []);
    ReachesStep(Step, s0, s3, TestFlag);
    var s4 := Do(s3, TestFlag);
    ReachesStep(Step, s0, s4, Asks(2));
    var s5 := Do(s4, Asks(2));
    ReachesStep(Step, s0, s5, TestFlag);
    assert Do(s5, TestFlag) == OneForgotten();
  }

  /** When the only child `child` exits, the server handles the exit and looks at the queue. */
  lemma ExitOfOnlyChild(s: State, child: int)
    requires Reachable(s) && s.phase.AtRead? && s.pids == [child] && s.running == {child} && s.zombies == {}
    ensures Reachable(s.(phase := AtQueue, sigchild := false, pids := [], running := {}))
  {
    var capacity :| capacity >= 1 && Reaches(Step, Init(capacity), s);
    var s0 := Init(capacity);
    ReachesStep(Step, s0, s, Exit(child));
    var s1 := Do(s, Exit(child));
    assert s1 == s.(sigchild := true, running := {}, zombies := {child});
    ReachesStep(Step, s0, s1, NoRequest);
    var s2 := Do(s1, NoRequest);
    ReachesStep(Step, s0, s2, TestFlag);
    var s3 := Do(s2, TestFlag);
    ReachesStep(Step, s0, s3, Reap(child));
    var s4 := Do(s3, Reap(child));
    assert s4 == s.(phase := Reaping, sigchild := false, pids := [], running := {});
    ReachesStep(Step, s0, s4, ReapedAll);
  }

  /** The forgotten client is never served: after the third one the queue still counts a client,
      and the next exit makes the server take out a slot that holds none. */
  lemma ForgottenClientHaltsServer()
    ensures exists s :: Reachable(s) && s.phase.Halted? && s.served == [0, 2] && s.requests == 3
  {
    SecondWaiterIsForgotten();
    ExitOfOnlyChild(OneForgotten(), 100);
    var s1 := OneForgotten().(phase := AtQueue, sigchild := false, pids := [], running := {});
    StepReachable(s1, TakeWaiting(102));
    var s2 := Do(s1, TakeWaiting(102));
    assert s2 == State(AtRead, false, 1, [102], Queue([], 1, 2), 2, {102}, {}, 3, [0, 2], []);
    ExitOfOnlyChild(s2, 102);
    var s3 := s2.(phase := AtQueue, sigchild := false, pids := [], running := {});
    StepReachable(s3, TakeWaiting(103));
    assert Do(s3, TakeWaiting(103)).phase.Halted?;
  }

  // Exactly when the server halts.

  /** `acts` runs without a new request, and at its end the server has halted. */
  ghost predicate HaltsAfter(s: State, acts: seq<Action>) {
    && Exec(Step, s, acts).Some? && Exec(Step, s, acts).value.phase.Halted?
    && forall a: Action :: a in acts ==> !a.Request?
  }

  /** How near a state is to the next look at the queue. */
  function Distance(s: State): nat {
    match s.phase
    case AtRead => if s.sigchild then 4 else 5
    case AtFlag => if s.sigchild then 3 else 6
    case Reaping => 2
    case AtQueue => 1
    case Halted => 0
  }

  lemma SomeOf(children: set<int>) returns (child: int)
    requires children != {}
    ensures child in children
  {
    if forall c: int :: c !in children {
      assert false;
    }
    child :| child in children;
  }

  lemma {:induction false} SomeUnused(used: set<int>) returns (child: int)
    ensures forall c :: c in used ==> c < child
    decreases used
  {
    if c :| c in used {
      var more := SomeUnused(used - {c});
      child := if c < more then more else c + 1;
      forall d | d in used ensures d < child {
        assert d == c || d in used - {c};
      }
    } else {
      child := 0;
    }
  }

  /** From `s` to `t` the queue gets shorter or its next look at comes nearer. */
  ghost predicate Nearer(s: State, t: State) {
    && t.queue.phantoms == s.queue.phantoms
    && (t.phase.Halted?
        || |t.queue.live| < |s.queue.live|
        || (|t.queue.live| == |s.queue.live|
            && (Distance(t) < Distance(s) || (Distance(t) == Distance(s) && |t.zombies| < |s.zombies|))))
  }

  lemma ChildRuns(s: State)
    requires Inv(s) && s.queue.phantoms > 0 && s.phase.AtRead? && !s.sigchild
    ensures exists child :: child in s.running
  {
    hide InOrder, AllPlaced;
    PlacesTaken(s);
    assert s.running != {};
    var child :| child in s.running;
  }

  lemma ReapIsNearer(s: State, child: int)
    requires s.phase.Reaping? && child in s.zombies
    ensures Nearer(s, Do(s, Reap(child)))
  {
    assert |s.zombies - {child}| == |s.zombies| - 1;
  }

  lemma TakeIsNearer(s: State, child: int)
    requires s.phase.AtQueue? && Unused(s, child) && s.queue.phantoms > 0
    ensures Nearer(s, Do(s, TakeWaiting(child)))
  {
  }

  /** The next step towards a look at the queue. */
  lemma TowardsQueue(s: State) returns (a: Action)
    requires s.queue.phantoms > 0 && !s.phase.Halted?
    requires s.phase.AtRead? && !s.sigchild ==> exists child :: child in s.running
    ensures Enabled(s, a) && !a.Request? && Nearer(s, Do(s, a))
  {
    match s.phase
    case AtRead =>
      if s.sigchild {
        a := NoRequest;
      } else {
        var child :| child in s.running;
        a := Exit(child);
      }
    case AtFlag => a := TestFlag;
    case Reaping =>
      if s.zombies == {} {
        a := ReapedAll;
      } else {
        var child := SomeOf(s.zombies);
        a := Reap(child);
        ReapIsNearer(s, child);
      }
    case AtQueue =>
      var child := SomeUnused(s.running + s.zombies);
      assert Unused(s, child);
      a := TakeWaiting(child);
      TakeIsNearer(s, child);
  }

  lemma {:induction false} PhantomHalts(s: State) returns (acts: seq<Action>)
    requires Inv(s) && s.queue.phantoms > 0
    ensures HaltsAfter(s, acts)
    decreases if s.phase.Halted? then 0 else 1, |s.queue.live|, Distance(s), |s.zombies|
  {
    if s.phase.Halted? {
      acts := [];
    } else {
      if s.phase.AtRead? && !s.sigchild {
        ChildRuns(s);
      }
      hide Inv, Enabled, Do;
      var a := TowardsQueue(s);
      StepKeepsInv(s, a);
      var more := PhantomHalts(Do(s, a));
      HaltsOneLater(s, a, more);
      acts := [a] + more;
    }
  }

  lemma HaltsOneLater(s: State, a: Action, more: seq<Action>)
    requires Enabled(s, a) && !a.Request? && HaltsAfter(Do(s, a), more)
    ensures HaltsAfter(s, [a] + more)
  {
    ExecCons(Step, s, a, Do(s, a), more);
  }

  lemma {:induction false} NoRequestKeepsPhantoms(s: State, acts: seq<Action>)
    requires Exec(Step, s, acts).Some? && forall a: Action :: a in acts ==> !a.Request?
    ensures Exec(Step, s, acts).value.queue.phantoms == s.queue.phantoms
    decreases |acts|
  {
    if acts != [] {
      assert acts[0] in acts;
      NoRequestKeepsPhantoms(Do(s, acts[0]), acts[1..]);
    }
  }

  /** The server can come to take a slot that holds no client, with no further request, if and
      only if a client was lost. */
  lemma HaltsIff(s: State)
    requires Reachable(s)
    ensures (exists acts :: HaltsAfter(s, acts)) <==> s.queue.phantoms > 0
  {
    ReachableInv(s);
    if s.queue.phantoms > 0 {
      var acts := PhantomHalts(s);
    } else {
      forall acts ensures !HaltsAfter(s, acts) {
        if HaltsAfter(s, acts) {
          NoRequestKeepsPhantoms(s, acts);
          var capacity :| capacity >= 1 && Reaches(Step, Init(capacity), s);
          ReachesRun(Step, Init(capacity), s, acts);
          ReachableInv(Exec(Step, s, acts).value);
          assert false;
        }
      }
    }
  }

  // ----------------------------------------------------------------- the loop, in place

  /** The server's globals, and the state of its children that the kernel keeps.  Each method
      is the part of the main loop, or of a function it calls, that its name says. */
  class MainLoop {
    const processArray: ProcessArray
    const processQueue: Ring<Client>
    var sigchild: bool
    var phase: Phase
    var clientId: nat
    var requests: nat
    ghost var running: set<int>
    ghost var zombies: set<int>
    ghost var served: seq<nat>
    ghost var refused: seq<nat>

    ghost predicate Valid()
      reads this, processArray, processQueue, processQueue.elements
    {
      && processArray.Valid()
      && processQueue.Valid()
    }

    ghost function View(): State
      reads this, processArray, processArray.pids, processQueue, processQueue.elements
      requires Valid()
    {
      State(phase, sigchild, processArray.capacity, processArray.Contents(), processQueue.Contents(),
            clientId, running, zombies, requests, served, refused)
    }

    constructor (maxClient: int)
      ensures Valid() && View() == Init(maxClient)
    {
      processArray := new ProcessArray(maxClient);
      processQueue := new Ring();
      sigchild, phase, clientId, requests := false, AtRead, 0, 0;
      running, zombies, served, refused := {}, {}, [], [];
    }

    /** `createChildProcess`, in the parent: `fork` returns `child`. */
    method CreateChildProcess(client: Client, child: int)
      requires Valid() && Unused(View(), child) && processArray.capacity >= 0
      modifies this, processArray, processArray.pids
      ensures Valid() && View() == WithChild(old(View()), client.ticket, child)
    {
      running := running + {child};
      var status := processArray.AddPidList(child);
      clientId := clientId + 1;
      served := served + [client.ticket];
    }

    method PutInQueue(client: Client)
      requires Valid()
      modifies processQueue, processQueue.elements
      ensures Valid() && View() == old(View()).(queue := Enqueued(old(View()).queue, client))
    {
      processQueue.Enqueue(client);
    }

    /** Lines 157-187. */
    method AdmitClient(client: Client, child: int) returns (clientTurn: int)
      requires Valid() && Unused(View(), child) && (ServesAtOnce(View()) ==> processArray.capacity >= 0)
      modifies this, processArray, processArray.pids, processQueue, processQueue.elements
      ensures Valid() && View() == Admit(old(View()), client, child)
      ensures clientTurn == if ServesAtOnce(old(View())) then 0 else old(View()).capacity + old(View()).queue.Size()
    {
      clientTurn := if processArray.size < processArray.capacity && processQueue.size == 0 then 0
                        else processArray.capacity + processQueue.size;
      if clientTurn == 0 {
        CreateChildProcess(client, child);
      } else if client.wait {
        PutInQueue(client);
      } else {
        refused := refused + [client.ticket];
      }
    }

    /** Lines 148-189: the request was read whole. */
    method HandleRequest(pid: int, wait: bool, cwd: string, child: int)
      requires Valid() && Enabled(View(), Request(pid, wait, cwd, child))
      requires ServesAtOnce(View()) ==> processArray.capacity >= 0
      modifies this, processArray, processArray.pids, processQueue, processQueue.elements
      ensures Valid() && View() == Do(old(View()), Request(pid, wait, cwd, child))
    {
      var clientTurn := AdmitClient(Client(pid, wait, cwd, requests), child);
      requests := requests + 1;
      phase := AtFlag;
    }

    /** `sigchld_handler`, run because `child` exits. */
    method ChildExits(child: int)
      requires Valid() && Enabled(View(), Exit(child))
      modifies this
      ensures Valid() && View() == Do(old(View()), Exit(child))
    {
      running, zombies := running - {child}, zombies + {child};
      sigchild := true;
    }

    /** Lines 208-209. */
    method CheckFlag()
      requires Valid() && Enabled(View(), TestFlag)
      modifies this
      ensures Valid() && View() == Do(old(View()), TestFlag)
    {
      if sigchild {
        sigchild, phase := false, Reaping;
      } else {
        phase := AtRead;
      }
    }

    /** One turn of the loop of lines 213-218: `waitpid` returns `child`. */
    method WaitChild(child: int)
      requires Valid() && Enabled(View(), Reap(child))
      modifies this, processArray, processArray.pids
      ensures Valid() && View() == Do(old(View()), Reap(child))
    {
      zombies := zombies - {child};
      var status := processArray.RemovePidList(child);
    }

    /** Lines 221-228. */
    method CheckQueue(child: int)
      requires Valid() && Enabled(View(), TakeWaiting(child))
      requires processQueue.live != [] ==> processArray.capacity >= 0
      modifies this, processArray, processArray.pids, processQueue, processQueue.elements
      ensures !phase.Halted? ==> Valid() && View() == Do(old(View()), TakeWaiting(child))
      ensures phase == old(Do(View(), TakeWaiting(child))).phase
      ensures phase.Halted? ==>
        && processArray.Valid() && processArray.Contents() == old(processArray.Contents())
        && sigchild == old(sigchild) && clientId == old(clientId) && requests == old(requests)
        && running == old(running) && zombies == old(zombies) && served == old(served) && refused == old(refused)
        && processQueue.size == old(processQueue.size) - 1 && processQueue.rear == old(processQueue.rear)
        && processQueue.capacity == old(processQueue.capacity)
        && processQueue.front == old(
             if processQueue.front == processQueue.capacity - 1 then 0 else processQueue.front + 1)
        && processQueue.elements == old(processQueue.elements)
        && processQueue.elements[..] == old(processQueue.elements[..])[old(processQueue.front) := Unset]
    {
      if processQueue.size > 0 {
        var slot := processQueue.Dequeue();
        match slot.value {
          case Unset =>
            phase := Halted;
          case Item(client) =>
            phase := AtRead;
            CreateChildProcess(client, child);
        }
      } else {
        phase := AtRead;
      }
    }
  }
}
