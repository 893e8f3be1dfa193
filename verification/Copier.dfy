// The parallel directory copier of Homework5/200104004104_main.c: one manager walks a tree and
// feeds a bounded buffer, any number of workers drain it, and a barrier ends the run.  A step
// is one critical section (from taking buffer_mutex to releasing it or to sleeping on a
// condition variable), or one local action between two of them.

module Copier {
  import opened Counting
  import opened FileTree
  import opened Runs

  const BUFSIZE := 4096

  /** Where the manager stands.  The comments give the line that comes next. */
  datatype Manager =
    | Walking            // 195, in the loop of the directory on top of the stack
    | Adding(f: Make)    // 226, with the descriptors of `f` open
    | AwaitRoom(f: Make) // 228, asleep on buffer_not_full
    | Finishing          // 170
    | ManagerWaits       // 175
    | ManagerGone        // past the barrier

  datatype Worker =
    | Fetching                           // 253
    | AwaitItem                          // 255, asleep on buffer_not_empty
    | Copying(f: Make, off: nat)         // 285, with `off` bytes of `f` copied
    | Tallying(f: Make, off: nat, n: nat) // 290, with the last `n` of them not counted yet
    | Counting                           // 272, with the descriptors closed
    | WorkerWaits                        // 277
    | WorkerGone                         // past the barrier

  /** An active call of traverse_directory: the rest of what its `readdir` loop will see. */
  datatype Frame = Frame(path: Path, rest: seq<Node>)

  /** What became of a file whose descriptors were opened.  (A history variable: the program
      does not record it.) */
  datatype Stage = Held | Queued | With(w: nat) | Copied(w: nat) | Dropped

  datatype State = State(
    size: nat, buffer: seq<Make>, done: bool,
    filesCopied: nat, directories: nat, fifos: nat, bytesCopied: nat,
    manager: Manager, stack: seq<Frame>,
    workers: seq<Worker>,
    fs: map<Path, Entry>,      // the destination
    // history
    stopped: bool,             // a stop was requested
    added: seq<Make>,          // the files added to the buffer, in that order
    stage: map<Path, Stage>,   // of every file that was opened
    closed: multiset<Path>)    // how often the descriptors of a file were closed

  datatype Action =
    | Manage(wake: nat)        // the manager's next step; a signal wakes worker `wake`
    | Work(w: nat, n: nat)     // the next step of worker `w`; a `read` returns `n` bytes
    | Stop                     // the critical section of signal_handler
    | SpuriousManager          // a wakeup without a signal
    | SpuriousWorker(w: nat)

  predicate Asleep(k: Worker) { k.AwaitItem? }

  /** Awake and in the loop: it will look at the buffer again. */
  predicate Awake(k: Worker) { k.Fetching? || k.Copying? || k.Tallying? || k.Counting? }

  predicate Arrived(k: Worker) { k.WorkerWaits? || k.WorkerGone? }

  predicate Gone(k: Worker) { k.WorkerGone? }

  /** All of the `num_workers + 1` threads have reached the barrier. */
  predicate BarrierOpen(s: State) {
    (s.manager.ManagerWaits? || s.manager.ManagerGone?) && Count(s.workers, Arrived) == |s.workers|
  }

  predicate SomeAsleep(s: State) { Count(s.workers, Asleep) > 0 }

  predicate WillAdd(s: State) {
    s.manager.Adding? && !s.done && |s.buffer| < s.size
  }

  predicate Enabled(s: State, a: Action) {
    match a
    case Manage(wake) =>
      && !s.manager.AwaitRoom? && !s.manager.ManagerGone?
      && (s.manager.ManagerWaits? ==> BarrierOpen(s))
      && (s.manager.Adding? ==> s.stack != [])
      && (WillAdd(s) && SomeAsleep(s) ==> wake < |s.workers| && Asleep(s.workers[wake]))
    case Work(w, n) =>
      && w < |s.workers|
      && (match s.workers[w]
          case AwaitItem => false
          case Copying(f, off) => off < Size(f) ==> 1 <= n <= BUFSIZE && off + n <= Size(f)
          case WorkerWaits => BarrierOpen(s)
          case WorkerGone => false
          case _ => true)
    case Stop => !s.done
    case SpuriousManager => s.manager.AwaitRoom?
    case SpuriousWorker(w) => w < |s.workers| && s.workers[w].AwaitItem?
  }

  function Woken(k: Worker): Worker { if k.AwaitItem? then Fetching else k }

  /** `pthread_cond_broadcast(&buffer_not_empty)`. */
  function WakeAll(workers: seq<Worker>): seq<Worker> {
    seq(|workers|, i requires 0 <= i < |workers| => Woken(workers[i]))
  }

  /** `pthread_cond_signal(&buffer_not_empty)`: wakes one sleeper, if there is any. */
  function WakeOne(workers: seq<Worker>, wake: nat): seq<Worker> {
    if wake < |workers| then workers[wake := Woken(workers[wake])] else workers
  }

  /** The next step of the `readdir` loop on top of the stack. */
  function Walk(s: State): State {
    if s.stack == [] then s.(manager := Finishing)
    else if s.stack[0].rest == [] then s.(stack := s.stack[1..])
    else
      var Frame(path, rest) := s.stack[0];
      var t := s.(stack := [Frame(path, rest[1..])] + s.stack[1..]);
      var target := path + [rest[0].name];
      match rest[0]
      case Dir(_, entries) =>
        t.(directories := s.directories + 1,
           stack := [Frame(target, entries)] + t.stack,
           fs := s.fs[target := DirEntry])
      case File(_, content) =>
        t.(manager := Adding(Make(target, FileEntry(content))),
           fs := s.fs[target := FileEntry([])],
           stage := s.stage[target := Held])
      case Fifo(_) => t.(fifos := s.fifos + 1, fs := s.fs[target := FifoEntry])
      case Other(_) => t
  }

  /** The critical section of lines 226-238. */
  function Add(s: State, f: Make, wake: nat): State
    requires s.stack != []
  {
    if s.done then
      s.(manager := Walking, stack := s.stack[1..],
         stage := s.stage[f.path := Dropped], closed := s.closed + multiset{f.path})
    else if |s.buffer| >= s.size then s.(manager := AwaitRoom(f))
    else
      s.(manager := Walking, buffer := s.buffer + [f], added := s.added + [f],
         stage := s.stage[f.path := Queued], workers := WakeOne(s.workers, wake))
  }

  function Manages(s: State, wake: nat): State
    requires s.manager.Adding? ==> s.stack != []
  {
    match s.manager
    case Walking => Walk(s)
    case Adding(f) => Add(s, f, wake)
    case AwaitRoom(_) => s
    case Finishing => s.(manager := ManagerWaits, done := true, workers := WakeAll(s.workers))
    case ManagerWaits => s.(manager := ManagerGone)
    case ManagerGone => s
  }

  /** `write` appends to the destination file. */
  function Appended(fs: map<Path, Entry>, p: Path, more: Bytes): map<Path, Entry> {
    fs[p := FileEntry((if p in fs && fs[p].FileEntry? then fs[p].content else []) + more)]
  }

  /** The critical section of lines 253-265. */
  function Fetch(s: State, w: nat): State
    requires w < |s.workers|
  {
    if s.buffer == [] then
      s.(workers := s.workers[w := if s.done then WorkerWaits else AwaitItem])
    else
      var f := s.buffer[0];
      s.(buffer := s.buffer[1..],
         workers := s.workers[w := Copying(f, 0)],
         stage := s.stage[f.path := With(w)],
         manager := if s.manager.AwaitRoom? then Adding(s.manager.f) else s.manager)
  }

  function Works(s: State, w: nat, n: nat): State
    requires w < |s.workers|
  {
    match s.workers[w]
    case Fetching => Fetch(s, w)
    case Copying(f, off) =>
      if off < Size(f) && off + n <= Size(f) then
        s.(workers := s.workers[w := Tallying(f, off + n, n)],
           fs := Appended(s.fs, f.path, f.entry.content[off..off + n]))
      else
        s.(workers := s.workers[w := Counting],
           stage := s.stage[f.path := Copied(w)], closed := s.closed + multiset{f.path})
    case Tallying(f, off, n) =>
      s.(workers := s.workers[w := Copying(f, off)], bytesCopied := s.bytesCopied + n)
    case Counting => s.(workers := s.workers[w := Fetching], filesCopied := s.filesCopied + 1)
    case WorkerWaits => s.(workers := s.workers[w := WorkerGone])
    case AwaitItem | WorkerGone => s
  }

  function Do(s: State, a: Action): State
    requires Enabled(s, a)
  {
    match a
    case Manage(wake) => Manages(s, wake)
    case Work(w, n) => Works(s, w, n)
    case Stop => s.(done := true, stopped := true, workers := WakeAll(s.workers))
    case SpuriousManager => s.(manager := Adding(s.manager.f))
    case SpuriousWorker(w) => s.(workers := s.workers[w := Fetching])
  }

  function Step(s: State, a: Action): Option<State> {
    if Enabled(s, a) then Some(Do(s, a)) else None
  }

  /** The manager has opened the source directory and made the destination directory. */
  function Init(size: nat, workers: nat, tree: seq<Node>, fs0: map<Path, Entry>): State {
    State(size, [], false, 0, 0, 0, 0, Walking, [Frame([], tree)], seq(workers, _ => Fetching),
          fs0[[] := DirEntry], false, [], map[], multiset{})
  }

  /** What is still to be made: the rest of every active directory, innermost first. */
  function Todo(stack: seq<Frame>): seq<Make>
    decreases |stack|
  {
    if stack == [] then [] else Plan(stack[0].path, stack[0].rest) + Todo(stack[1..])
  }

  // ------------------------------------------------------------ the condition variables

  /** How many workers there are of each kind. */
  datatype Crew = Crew(all: nat, asleep: nat, awake: nat, arrived: nat, gone: nat)

  function CrewOf(workers: seq<Worker>): Crew {
    Crew(|workers|, Count(workers, Asleep), Count(workers, Awake), Count(workers, Arrived), Count(workers, Gone))
  }

  /** The crew when one worker has gone from `k` to `l`. */
  predicate Moved(c: Crew, d: Crew, k: Worker, l: Worker) {
    && d.all == c.all
    && Shift(c.asleep, d.asleep, Asleep(k), Asleep(l))
    && Shift(c.awake, d.awake, Awake(k), Awake(l))
    && Shift(c.arrived, d.arrived, Arrived(k), Arrived(l))
    && Shift(c.gone, d.gone, Gone(k), Gone(l))
  }

  lemma MoveCrew(workers: seq<Worker>, w: nat, l: Worker)
    requires w < |workers|
    ensures Moved(CrewOf(workers), CrewOf(workers[w := l]), workers[w], l)
  {
    CountUpdate(workers, w, l, Asleep);
    CountUpdate(workers, w, l, Awake);
    CountUpdate(workers, w, l, Arrived);
    CountUpdate(workers, w, l, Gone);
  }

  lemma {:induction false} CrewSizeTo(workers: seq<Worker>, n: nat)
    requires n <= |workers|
    ensures CountTo(workers, n, Asleep) + CountTo(workers, n, Awake) + CountTo(workers, n, Arrived) == n
  {
    if n > 0 {
      CrewSizeTo(workers, n - 1);
    }
  }

  lemma {:induction false} WakeAllTo(workers: seq<Worker>, n: nat)
    requires n <= |workers|
    ensures var woken := WakeAll(workers);
            && CountTo(woken, n, Asleep) == 0
            && CountTo(woken, n, Awake) == CountTo(workers, n, Awake) + CountTo(workers, n, Asleep)
            && CountTo(woken, n, Arrived) == CountTo(workers, n, Arrived)
            && CountTo(woken, n, Gone) == CountTo(workers, n, Gone)
  {
    if n > 0 {
      WakeAllTo(workers, n - 1);
    }
  }

  lemma WakeAllCrew(workers: seq<Worker>)
    ensures var c, d := CrewOf(workers), CrewOf(WakeAll(workers));
            d == Crew(c.all, 0, c.awake + c.asleep, c.arrived, c.gone)
  {
    WakeAllTo(workers, |workers|);
  }

  predicate ManagerArrived(m: Manager) { m.ManagerWaits? || m.ManagerGone? }

  /** No wakeup is lost: a worker sleeps only while there is no item without an awake worker to
      take it, the manager only while the buffer is full, and no worker once `done` is set; a
      worker leaves the loop only when nothing will be added. */
  predicate InSync(size: nat, items: nat, done: bool, m: Manager, c: Crew) {
    && items <= size
    && c.asleep + c.awake + c.arrived == c.all
    && (c.asleep > 0 ==> !done && items <= c.awake)
    && (m.AwaitRoom? ==> items == size)
    && (c.arrived > 0 ==> done && items == 0)
    && (ManagerArrived(m) ==> done)
    && (m.ManagerGone? || c.gone > 0 ==> ManagerArrived(m) && c.arrived == c.all)
  }

  predicate SyncInv(s: State) {
    && InSync(s.size, |s.buffer|, s.done, s.manager, CrewOf(s.workers))
    && (s.stopped ==> s.done)
    && (s.manager.Adding? || s.manager.AwaitRoom? ==> s.stack != [])
    && (s.manager.Finishing? || ManagerArrived(s.manager) ==> s.stack == [])
  }

  lemma FetchKeepsSync(s: State, w: nat)
    requires SyncInv(s) && w < |s.workers| && s.workers[w].Fetching?
    ensures SyncInv(Fetch(s, w))
  {
    MoveCrew(s.workers, w, Fetch(s, w).workers[w]);
  }

  /** A worker that does not look at the buffer changes nothing that others wait for. */
  lemma OtherWorkFrame(s: State, w: nat, n: nat)
    requires w < |s.workers| && !s.workers[w].Fetching?
    ensures var t := Works(s, w, n);
            && t.workers == s.workers[w := t.workers[w]]
            && t == s.(workers := t.workers, fs := t.fs, stage := t.stage, closed := t.closed,
                       bytesCopied := t.bytesCopied, filesCopied := t.filesCopied)
  {
    match s.workers[w]
    case Copying(f, off) =>
      if off < Size(f) && off + n <= Size(f) {
      }
    case Tallying(f, off, n) =>
    case Counting =>
    case WorkerWaits =>
    case _ =>
  }

  lemma OtherWorkKeepsSync(s: State, w: nat, n: nat)
    requires SyncInv(s) && Enabled(s, Work(w, n)) && !s.workers[w].Fetching?
    ensures SyncInv(Works(s, w, n))
  {
    var k, t := s.workers[w], Works(s, w, n);
    OtherWorkFrame(s, w, n);
    MoveCrew(s.workers, w, t.workers[w]);
    if k.WorkerWaits? {
      assert t.workers[w] == WorkerGone;
    } else {
      assert Awake(k) && Awake(t.workers[w]);
    }
  }

  lemma AddKeepsSync(s: State, wake: nat)
    requires SyncInv(s) && Enabled(s, Manage(wake)) && s.manager.Adding?
    ensures SyncInv(Manages(s, wake))
  {
    if WillAdd(s) && wake < |s.workers| {
      MoveCrew(s.workers, wake, Woken(s.workers[wake]));
    }
  }

  /** Walking touches neither the buffer nor the workers. */
  lemma WalkFrame(s: State)
    requires s.manager.Walking?
    ensures var t := Walk(s);
            && t == s.(manager := t.manager, stack := t.stack, fs := t.fs, stage := t.stage,
                       directories := t.directories, fifos := t.fifos)
            && (t.manager == Walking || (t.manager.Adding? && t.stack != [])
                || (t.manager == Finishing && t.stack == []))
  {
    if s.stack != [] && s.stack[0].rest != [] {
      match s.stack[0].rest[0]
      case Dir(_, _) =>
      case File(_, _) =>
      case Fifo(_) =>
      case Other(_) =>
    }
  }

  lemma WalkKeepsSync(s: State)
    requires SyncInv(s) && s.manager.Walking?
    ensures SyncInv(Walk(s))
  {
    WalkFrame(s);
  }

  lemma EndKeepsSync(s: State, wake: nat)
    requires SyncInv(s) && Enabled(s, Manage(wake)) && (s.manager.Finishing? || s.manager.ManagerWaits?)
    ensures SyncInv(Manages(s, wake))
  {
    WakeAllCrew(s.workers);
  }

  lemma StepKeepsSync(s: State, a: Action)
    requires SyncInv(s) && Enabled(s, a)
    ensures SyncInv(Do(s, a))
  {
    match a
    case Manage(wake) =>
      if s.manager.Walking? {
        WalkKeepsSync(s);
      } else if s.manager.Adding? {
        AddKeepsSync(s, wake);
      } else {
        EndKeepsSync(s, wake);
      }
    case Work(w, n) => if s.workers[w].Fetching? { FetchKeepsSync(s, w); } else { OtherWorkKeepsSync(s, w, n); }
    case Stop => WakeAllCrew(s.workers);
    case SpuriousManager =>
    case SpuriousWorker(w) => MoveCrew(s.workers, w, Fetching);
  }

  // ---------------------------------------------------------------- the order of the files

  /** The file that the manager has opened and not added. */
  function Pending(m: Manager): seq<Make> {
    match m
    case Adding(f) => [f]
    case AwaitRoom(f) => [f]
    case _ => []
  }

  /** The walk follows the plan, and what is added are the files that it has passed. */
  ghost predicate OrderInv(plan: seq<Make>, s: State) {
    && IsSuffix(Todo(s.stack), plan)
    && (s.stopped ==> s.done) && (s.done ==> s.stopped || ManagerArrived(s.manager))
    && s.added <= Files(plan)
    && (!s.stopped ==> s.added + Pending(s.manager) + Files(Todo(s.stack)) == Files(plan))
  }

  ghost predicate IsSuffix(xs: seq<Make>, ys: seq<Make>) {
    |xs| <= |ys| && ys[|ys| - |xs|..] == xs
  }

  lemma TailIsSuffix(xs: seq<Make>, head: seq<Make>, tail: seq<Make>, ys: seq<Make>)
    requires IsSuffix(xs, ys) && xs == head + tail
    ensures IsSuffix(tail, ys)
  {
    assert ys[|ys| - |tail|..] == ys[|ys| - |xs|..][|head|..];
  }

  /** What the next step of the walk makes, if anything. */
  function NextMake(s: State): seq<Make> {
    if s.stack == [] || s.stack[0].rest == [] then []
    else
      var target := s.stack[0].path + [s.stack[0].rest[0].name];
      match s.stack[0].rest[0]
      case Dir(_, _) => [Make(target, DirEntry)]
      case File(_, content) => [Make(target, FileEntry(content))]
      case Fifo(_) => [Make(target, FifoEntry)]
      case Other(_) => []
  }

  lemma PushTodo(path: Path, rest: seq<Node>, stack: seq<Frame>)
    ensures Todo([Frame(path, rest)] + stack) == Plan(path, rest) + Todo(stack)
  {
    assert ([Frame(path, rest)] + stack)[1..] == stack;
  }

  /** Taking the first entry off a directory takes its plan off what is to do. */
  lemma EntryTodo(path: Path, rest: seq<Node>, stack: seq<Frame>)
    requires rest != []
    ensures Todo([Frame(path, rest)] + stack) == PlanOf(path, rest[0]) + Todo([Frame(path, rest[1..])] + stack)
  {
    PushTodo(path, rest, stack);
    PushTodo(path, rest[1..], stack);
    assert Plan(path, rest) + Todo(stack) == PlanOf(path, rest[0]) + (Plan(path, rest[1..]) + Todo(stack));
  }

  lemma WalkTodo(s: State)
    requires s.manager.Walking?
    ensures Todo(s.stack) == NextMake(s) + Todo(Walk(s).stack)
  {
    if s.stack != [] && s.stack[0].rest != [] {
      var Frame(path, rest) := s.stack[0];
      var below := [Frame(path, rest[1..])] + s.stack[1..];
      assert s.stack == [Frame(path, rest)] + s.stack[1..];
      EntryTodo(path, rest, s.stack[1..]);
      match rest[0]
      case Dir(name, entries) =>
        PushTodo(path + [name], entries, below);
        assert PlanOf(path, rest[0]) + Todo(below)
            == [Make(path + [name], DirEntry)] + (Plan(path + [name], entries) + Todo(below));
      case File(_, _) =>
      case Fifo(_) =>
      case Other(_) =>
    }
  }

  /** The files of what is to do, before and after the walk has made `head`. */
  lemma FilesAfter(head: seq<Make>, tail: seq<Make>)
    requires |head| <= 1
    ensures Files(head + tail) == (if head != [] && head[0].entry.FileEntry? then head else []) + Files(tail)
  {
    if head != [] {
      assert (head + tail)[1..] == tail;
    } else {
      assert head + tail == tail;
    }
  }

  /** The walk hands on the file that it opens, and passes over everything else. */
  lemma WalkPending(s: State)
    requires s.manager.Walking?
    ensures Pending(Walk(s).manager) ==
            (if NextMake(s) != [] && NextMake(s)[0].entry.FileEntry? then NextMake(s) else [])
  {
    if s.stack != [] && s.stack[0].rest != [] {
      match s.stack[0].rest[0]
      case Dir(_, _) =>
      case File(_, _) =>
      case Fifo(_) =>
      case Other(_) =>
    }
  }

  lemma WalkedKeepsOrder(plan: seq<Make>, s: State, t: State, head: seq<Make>)
    requires OrderInv(plan, s) && Pending(s.manager) == [] && !ManagerArrived(s.manager)
    requires t.added == s.added && t.done == s.done && t.stopped == s.stopped
    requires |head| <= 1 && Todo(s.stack) == head + Todo(t.stack)
    requires Pending(t.manager) == if head != [] && head[0].entry.FileEntry? then head else []
    ensures OrderInv(plan, t)
  {
    hide Todo, Files;
    TailIsSuffix(Todo(s.stack), head, Todo(t.stack), plan);
    FilesAfter(head, Todo(t.stack));
    assert s.added + [] + (Pending(t.manager) + Files(Todo(t.stack)))
        == s.added + Pending(t.manager) + Files(Todo(t.stack));
  }

  lemma WalkKeepsOrder(plan: seq<Make>, s: State)
    requires OrderInv(plan, s) && s.manager.Walking?
    ensures OrderInv(plan, Walk(s))
  {
    WalkFrame(s);
    WalkTodo(s);
    WalkPending(s);
    WalkedKeepsOrder(plan, s, Walk(s), NextMake(s));
  }

  lemma AddKeepsOrder(plan: seq<Make>, s: State, f: Make, wake: nat)
    requires OrderInv(plan, s) && s.manager == Adding(f) && s.stack != []
    ensures OrderInv(plan, Add(s, f, wake))
  {
    if s.done {
      TailIsSuffix(Todo(s.stack), Plan(s.stack[0].path, s.stack[0].rest), Todo(s.stack[1..]), plan);
    } else if |s.buffer| < s.size {
      var t := Add(s, f, wake);
      assert t.added + [] + Files(Todo(s.stack)) == s.added + [f] + Files(Todo(s.stack));
      if !s.stopped {
        assert t.added <= Files(plan);
      }
    }
  }

  lemma ManageKeepsOrder(plan: seq<Make>, s: State, wake: nat)
    requires OrderInv(plan, s) && Enabled(s, Manage(wake))
    ensures OrderInv(plan, Manages(s, wake))
  {
    match s.manager
    case Walking => WalkKeepsOrder(plan, s);
    case Adding(f) => AddKeepsOrder(plan, s, f, wake);
    case _ =>
  }

  // -------------------------------------------------------------- the stages of a file

  /** The file whose descriptors a worker has open. */
  function Load(k: Worker): Option<Make> {
    match k
    case Copying(f, _) => Some(f)
    case Tallying(f, _, _) => Some(f)
    case _ => None
  }

  ghost predicate PathIn(p: Path, files: seq<Make>) {
    exists f :: f in files && f.path == p
  }

  /** Whoever a file's stage says has it, has it. */
  ghost predicate HasHolder(s: State, p: Path)
    requires p in s.stage
  {
    match s.stage[p]
    case Held => PathIn(p, Pending(s.manager))
    case Queued => PathIn(p, s.buffer)
    case With(w) => w < |s.workers| && Load(s.workers[w]).Some? && Load(s.workers[w]).value.path == p
    case Copied(w) => w < |s.workers|
    case Dropped => s.stopped
  }

  predicate Closed(g: Stage) { g.Copied? || g.Dropped? }

  predicate WasAdded(g: Stage) { g.Queued? || g.With? || g.Copied? }

  predicate IsAt(stage: map<Path, Stage>, f: Make, g: Stage) {
    f.path in stage && stage[f.path] == g
  }

  /** Every opened file is in exactly one place, and its descriptors are closed once, when it
      leaves the last one. */
  ghost predicate StageInv(s: State) {
    ItemsInv(s) && HolderInv(s) && CloseInv(s)
  }

  /** The stage of a file follows from where it is ... */
  ghost predicate ItemsInv(s: State) {
    && DistinctPaths(s.added) && DistinctPaths(s.buffer)
    && (forall f :: f in Pending(s.manager) ==> f.entry.FileEntry? && IsAt(s.stage, f, Held))
    && (forall f :: f in s.buffer ==> f in s.added && IsAt(s.stage, f, Queued))
    && (forall w :: 0 <= w < |s.workers| && Load(s.workers[w]).Some? ==>
          Load(s.workers[w]).value in s.added && IsAt(s.stage, Load(s.workers[w]).value, With(w)))
    && (forall f :: f in s.added ==> f.entry.FileEntry? && f.path in s.stage && WasAdded(s.stage[f.path]))
  }

  /** ... and where it is from its stage. */
  ghost predicate HolderInv(s: State) {
    forall p :: p in s.stage ==> HasHolder(s, p)
  }

  ghost predicate CloseInv(s: State) {
    && (forall m :: m in Todo(s.stack) ==> m.path !in s.stage)
    && (forall p :: s.closed[p] == One(p in s.stage && Closed(s.stage[p])))
  }

  predicate SameLoads(xs: seq<Worker>, ys: seq<Worker>) {
    |xs| == |ys| && forall w :: 0 <= w < |xs| ==> Load(xs[w]) == Load(ys[w])
  }

  ghost predicate TodoWithin(s: State, t: State) {
    forall m :: m in Todo(t.stack) ==> m in Todo(s.stack)
  }

  // The steps, sorted by what they do to a file.

  /** Neither a file nor a load moves. */
  ghost predicate Quiet(s: State, t: State) {
    && SameLoads(s.workers, t.workers) && TodoWithin(s, t)
    && t.buffer == s.buffer && t.added == s.added && t.stage == s.stage && t.closed == s.closed
    && Pending(t.manager) == Pending(s.manager) && (s.stopped ==> t.stopped)
  }

  /** The walk opens `f`. */
  ghost predicate Opens(s: State, t: State, f: Make) {
    && Pending(s.manager) == [] && Pending(t.manager) == [f] && f.entry.FileEntry?
    && Todo(s.stack) == [f] + Todo(t.stack)
    && t == s.(manager := t.manager, stack := t.stack,
               fs := s.fs[f.path := FileEntry([])], stage := s.stage[f.path := Held])
  }

  /** After a stop, the manager closes `f` unadded. */
  ghost predicate Drops(s: State, t: State, f: Make) {
    && Pending(s.manager) == [f] && Pending(t.manager) == [] && s.stopped && TodoWithin(s, t)
    && t == s.(manager := t.manager, stack := t.stack,
               stage := s.stage[f.path := Dropped], closed := s.closed + multiset{f.path})
  }

  /** The manager adds `f`. */
  ghost predicate Adds(s: State, t: State, f: Make) {
    && Pending(s.manager) == [f] && Pending(t.manager) == [] && SameLoads(s.workers, t.workers)
    && t == s.(manager := t.manager, buffer := s.buffer + [f], added := s.added + [f],
               stage := s.stage[f.path := Queued], workers := t.workers)
  }

  /** Worker `w` takes the front item `f`. */
  ghost predicate Takes(s: State, t: State, w: nat, f: Make) {
    && s.buffer != [] && s.buffer[0] == f && w < |s.workers| && s.workers[w].Fetching?
    && Pending(t.manager) == Pending(s.manager)
    && t == s.(manager := t.manager, buffer := s.buffer[1..], workers := s.workers[w := Copying(f, 0)],
               stage := s.stage[f.path := With(w)])
  }

  /** Worker `w` has read the end of `f` and closes it. */
  ghost predicate Closes(s: State, t: State, w: nat, f: Make) {
    && w < |s.workers| && s.workers[w].Copying? && s.workers[w].f == f
    && t == s.(workers := s.workers[w := Counting],
               stage := s.stage[f.path := Copied(w)], closed := s.closed + multiset{f.path})
  }

  lemma QuietKeepsStage(s: State, t: State)
    requires StageInv(s) && Quiet(s, t)
    ensures StageInv(t)
  {
    forall p | p in t.stage
      ensures HasHolder(t, p)
    {
      assert HasHolder(s, p);
    }
  }

  lemma OpensKeepsItems(s: State, t: State, f: Make)
    requires StageInv(s) && Opens(s, t, f)
    ensures ItemsInv(t)
  {
    hide Todo;
    assert f == Todo(s.stack)[0];
  }

  lemma OpensKeepsClosed(s: State, t: State, f: Make)
    requires CloseInv(s) && Opens(s, t, f) && DistinctPaths(Todo(s.stack))
    ensures CloseInv(t)
  {
    hide Todo;
    var all := Todo(s.stack);
    assert f == all[0];
    forall m | m in Todo(t.stack)
      ensures m.path !in t.stage
    {
      assert m in all && m.path !in s.stage;
      var i :| 0 <= i < |Todo(t.stack)| && Todo(t.stack)[i] == m;
      assert all[i + 1] == m;
    }
  }

  lemma OpensKeepsStage(s: State, t: State, f: Make)
    requires StageInv(s) && Opens(s, t, f) && DistinctPaths(Todo(s.stack))
    ensures StageInv(t)
  {
    hide Todo;
    OpensKeepsItems(s, t, f);
    OpensKeepsClosed(s, t, f);
    forall p | p in t.stage
      ensures HasHolder(t, p)
    {
      if p == f.path {
        assert f in Pending(t.manager);
      } else {
        assert HasHolder(s, p);
      }
    }
  }

  lemma DropsKeepsItems(s: State, t: State, f: Make)
    requires ItemsInv(s) && Drops(s, t, f)
    ensures ItemsInv(t)
  {
    hide Todo;
    assert f in Pending(s.manager);
  }

  lemma DropsKeepsClosed(s: State, t: State, f: Make)
    requires ItemsInv(s) && CloseInv(s) && Drops(s, t, f)
    ensures CloseInv(t)
  {
    hide Todo;
    assert f in Pending(s.manager);
  }

  lemma DropsKeepsStage(s: State, t: State, f: Make)
    requires StageInv(s) && Drops(s, t, f)
    ensures StageInv(t)
  {
    hide Todo, ItemsInv, CloseInv;
    DropsKeepsItems(s, t, f);
    DropsKeepsClosed(s, t, f);
    forall p | p in t.stage
      ensures HasHolder(t, p)
    {
      assert p != f.path ==> HasHolder(s, p);
    }
  }

  lemma AddsKeepsItems(s: State, t: State, f: Make)
    requires ItemsInv(s) && Adds(s, t, f)
    ensures ItemsInv(t)
  {
    hide Todo;
    assert f in Pending(s.manager);
    assert forall g :: g in s.added ==> g.path != f.path;
    assert forall g :: g in s.buffer ==> g.path != f.path;
  }

  lemma AddsKeepsClosed(s: State, t: State, f: Make)
    requires StageInv(s) && Adds(s, t, f)
    ensures CloseInv(t)
  {
    assert f in Pending(s.manager);
  }

  lemma AddsKeepsStage(s: State, t: State, f: Make)
    requires StageInv(s) && Adds(s, t, f)
    ensures StageInv(t)
  {
    hide Todo;
    AddsKeepsItems(s, t, f);
    AddsKeepsClosed(s, t, f);
    forall p | p in t.stage
      ensures HasHolder(t, p)
    {
      if p == f.path {
        assert f in t.buffer;
      } else {
        assert HasHolder(s, p);
        if s.stage[p].Queued? {
          var g :| g in s.buffer && g.path == p;
          assert g in t.buffer;
        }
      }
    }
  }

  lemma TakesKeepsItems(s: State, t: State, w: nat, f: Make)
    requires ItemsInv(s) && Takes(s, t, w, f)
    ensures ItemsInv(t)
  {
    hide Todo;
    forall g | g in t.buffer
      ensures g in t.added && IsAt(t.stage, g, Queued)
    {
      var i :| 0 <= i < |t.buffer| && t.buffer[i] == g;
      assert s.buffer[i + 1] == g && s.buffer[0] == f;
    }
    assert f in s.buffer;
  }

  lemma TakesKeepsClosed(s: State, t: State, w: nat, f: Make)
    requires StageInv(s) && Takes(s, t, w, f)
    ensures CloseInv(t)
  {
    assert f in s.buffer;
  }

  lemma TakesKeepsStage(s: State, t: State, w: nat, f: Make)
    requires StageInv(s) && Takes(s, t, w, f)
    ensures StageInv(t)
  {
    hide Todo;
    TakesKeepsItems(s, t, w, f);
    TakesKeepsClosed(s, t, w, f);
    forall p | p in t.stage
      ensures HasHolder(t, p)
    {
      if p != f.path {
        assert HasHolder(s, p);
        if s.stage[p].Queued? {
          var g :| g in s.buffer && g.path == p;
          assert g in t.buffer;
        }
      }
    }
  }

  lemma ClosesKeepsItems(s: State, t: State, w: nat, f: Make)
    requires ItemsInv(s) && Closes(s, t, w, f)
    ensures ItemsInv(t)
  {
    hide Todo;
    forall v | 0 <= v < |t.workers| && Load(t.workers[v]).Some?
      ensures Load(t.workers[v]).value in t.added && IsAt(t.stage, Load(t.workers[v]).value, With(v))
    {
      var g := Load(s.workers[v]).value;
      assert IsAt(s.stage, g, With(v)) && IsAt(s.stage, f, With(w));
    }
  }

  lemma ClosesKeepsStage(s: State, t: State, w: nat, f: Make)
    requires StageInv(s) && Closes(s, t, w, f)
    ensures StageInv(t)
  {
    hide Todo;
    ClosesKeepsItems(s, t, w, f);
    assert Load(s.workers[w]) == Some(f);
    forall p | p in t.stage
      ensures HasHolder(t, p)
    {
      assert p != f.path ==> HasHolder(s, p);
    }
  }

  // ------------------------------------------------------------------- the destination

  function Offset(k: Worker): nat {
    match k
    case Copying(_, off) => off
    case Tallying(_, off, _) => off
    case _ => 0
  }

  /** How many bytes of `f` have been written. */
  function Progress(s: State, f: Make): nat {
    if f.path !in s.stage then 0
    else
      match s.stage[f.path]
      case With(w) => if w < |s.workers| then Offset(s.workers[w]) else 0
      case Copied(_) => Size(f)
      case _ => 0
  }

  /** The destination has the first `n` bytes of `f`. */
  predicate FsHas(fs: map<Path, Entry>, f: Make, n: nat) {
    f.entry.FileEntry? && n <= Size(f) && f.path in fs && fs[f.path] == FileEntry(f.entry.content[..n])
  }

  /** Every added file has been copied as far as its worker has come, and no further. */
  ghost predicate ContentInv(s: State) {
    && (forall f :: f in Pending(s.manager) ==> FsHas(s.fs, f, 0))
    && (forall f :: f in s.added ==> FsHas(s.fs, f, Progress(s, f)))
  }

  predicate SameOffsets(xs: seq<Worker>, ys: seq<Worker>) {
    |xs| == |ys| && forall w :: 0 <= w < |xs| ==> Offset(xs[w]) == Offset(ys[w])
  }

  /** The walk makes the directory or FIFO `m`. */
  ghost predicate Makes(s: State, t: State, m: Make) {
    && Quiet(s, t) && t.workers == s.workers && t.stopped == s.stopped && !m.entry.FileEntry?
    && Todo(s.stack) == [m] + Todo(t.stack) && t.fs == s.fs[m.path := m.entry]
  }

  /** The destination stays as it is. */
  ghost predicate Still(s: State, t: State) {
    && Quiet(s, t) && SameOffsets(s.workers, t.workers) && t.fs == s.fs
    && Todo(t.stack) == Todo(s.stack) && t.added == s.added
  }

  /** Worker `w` writes the `n` bytes of `f` from `off` on. */
  ghost predicate Writes(s: State, t: State, w: nat, f: Make, off: nat, n: nat) {
    && w < |s.workers| && s.workers[w] == Copying(f, off) && off < Size(f) && off + n <= Size(f)
    && t == s.(workers := s.workers[w := Tallying(f, off + n, n)],
               fs := Appended(s.fs, f.path, f.entry.content[off..off + n]))
  }

  lemma StillKeepsContent(s: State, t: State)
    requires ContentInv(s) && Still(s, t)
    ensures ContentInv(t)
  {
    assert forall f :: f in t.added ==> Progress(t, f) == Progress(s, f);
  }

  lemma MakesKeepsContent(s: State, t: State, m: Make)
    requires StageInv(s) && ContentInv(s) && Makes(s, t, m)
    ensures ContentInv(t)
  {
    hide Todo, Files;
    assert m == Todo(s.stack)[0];
    assert forall f :: f in t.added ==> Progress(t, f) == Progress(s, f);
  }

  lemma OpensKeepsContent(s: State, t: State, f: Make)
    requires StageInv(s) && ContentInv(s) && Opens(s, t, f)
    ensures ContentInv(t)
  {
    hide Todo, Files;
    assert f == Todo(s.stack)[0];
    assert forall g :: g in s.added ==> Progress(t, g) == Progress(s, g);
  }

  lemma DropsKeepsContent(s: State, t: State, f: Make)
    requires StageInv(s) && ContentInv(s) && Drops(s, t, f)
    ensures ContentInv(t)
  {
    assert f in Pending(s.manager);
    assert forall g :: g in s.added ==> Progress(t, g) == Progress(s, g);
  }

  lemma AddsKeepsContent(s: State, t: State, f: Make)
    requires StageInv(s) && ContentInv(s) && Adds(s, t, f) && SameOffsets(s.workers, t.workers)
    ensures ContentInv(t)
  {
    hide Todo, Files;
    assert f in Pending(s.manager);
    assert forall g :: g in s.added ==> Progress(t, g) == Progress(s, g);
  }

  lemma TakesKeepsProgress(s: State, t: State, w: nat, f: Make, g: Make)
    requires StageInv(s) && Takes(s, t, w, f) && g in s.added
    ensures Progress(t, g) == Progress(s, g)
  {
    hide Todo, Files, CloseInv, HolderInv;
    assert f in s.buffer;
    assert HasHolder(s, g.path) by { HolderOf(s, g); }
  }

  lemma ClosesKeepsProgress(s: State, t: State, w: nat, f: Make, g: Make)
    requires StageInv(s) && Closes(s, t, w, f) && g in s.added && Offset(s.workers[w]) == Size(f)
    ensures Progress(t, g) == Progress(s, g)
  {
    hide Todo, Files, CloseInv, HolderInv;
    assert Load(s.workers[w]) == Some(f) && IsAt(s.stage, f, With(w)) && f in s.added;
    assert HasHolder(s, g.path) by { HolderOf(s, g); }
  }

  lemma HolderOf(s: State, g: Make)
    requires ItemsInv(s) && HolderInv(s) && g in s.added
    ensures g.path in s.stage && HasHolder(s, g.path)
  {
  }

  /** Nothing is written and no file gets on or falls back. */
  lemma SameProgressKeepsContent(s: State, t: State)
    requires ContentInv(s) && t.fs == s.fs && t.added == s.added && Pending(t.manager) == Pending(s.manager)
    requires forall g :: g in s.added ==> Progress(t, g) == Progress(s, g)
    ensures ContentInv(t)
  {
  }

  lemma TakesKeepsContent(s: State, t: State, w: nat, f: Make)
    requires StageInv(s) && ContentInv(s) && Takes(s, t, w, f)
    ensures ContentInv(t)
  {
    hide StageInv, ContentInv, Progress;
    forall g | g in s.added
      ensures Progress(t, g) == Progress(s, g)
    {
      TakesKeepsProgress(s, t, w, f, g);
    }
    SameProgressKeepsContent(s, t);
  }

  lemma ClosesKeepsContent(s: State, t: State, w: nat, f: Make)
    requires StageInv(s) && ContentInv(s) && Closes(s, t, w, f) && Offset(s.workers[w]) == Size(f)
    ensures ContentInv(t)
  {
    hide StageInv, ContentInv, Progress;
    forall g | g in s.added
      ensures Progress(t, g) == Progress(s, g)
    {
      ClosesKeepsProgress(s, t, w, f, g);
    }
    SameProgressKeepsContent(s, t);
  }

  /** Two workers never write to one file, so what another one has written stays. */
  lemma WritesKeepsOther(s: State, t: State, w: nat, f: Make, off: nat, n: nat, g: Make)
    requires StageInv(s) && ContentInv(s) && Writes(s, t, w, f, off, n) && g in s.added && g.path != f.path
    ensures FsHas(t.fs, g, Progress(t, g))
  {
    hide Todo, Files, CloseInv;
    assert HasHolder(s, g.path) && FsHas(s.fs, g, Progress(s, g));
  }

  lemma WritesKeepsOwn(s: State, t: State, w: nat, f: Make, off: nat, n: nat)
    requires StageInv(s) && ContentInv(s) && Writes(s, t, w, f, off, n)
    ensures f in s.added && FsHas(t.fs, f, Progress(t, f))
  {
    hide Todo, Files, CloseInv, HolderInv;
    assert Load(s.workers[w]) == Some(f) && IsAt(s.stage, f, With(w)) && f in s.added;
    assert Progress(s, f) == off && Progress(t, f) == off + n;
    var content := f.entry.content;
    assert content[..off] + content[off..off + n] == content[..off + n];
  }

  lemma WritesKeepsContent(s: State, t: State, w: nat, f: Make, off: nat, n: nat)
    requires StageInv(s) && ContentInv(s) && Writes(s, t, w, f, off, n)
    ensures ContentInv(t)
  {
    hide Todo, Files, CloseInv, HolderInv, FsHas, Progress;
    WritesKeepsOwn(s, t, w, f, off, n);
    forall g | g in s.added
      ensures FsHas(t.fs, g, Progress(t, g))
    {
      if g.path != f.path {
        WritesKeepsOther(s, t, w, f, off, n, g);
      }
    }
    assert Load(s.workers[w]) == Some(f) && IsAt(s.stage, f, With(w));
    forall g | g in Pending(t.manager)
      ensures FsHas(t.fs, g, 0)
    {
      assert IsAt(s.stage, g, Held);
      PendingStays(s, t, g, f.path);
    }
  }

  lemma PendingStays(s: State, t: State, g: Make, p: Path)
    requires FsHas(s.fs, g, 0) && g.path != p && p in t.fs && t.fs == s.fs[p := t.fs[p]]
    ensures FsHas(t.fs, g, 0)
  {
  }

  /** A file that was given up is left as it was opened: empty. */
  ghost predicate DroppedInv(s: State) {
    forall p :: p in s.stage && s.stage[p].Dropped? ==> IsEmptied(s.fs, p)
  }

  predicate IsEmptied(fs: map<Path, Entry>, p: Path) {
    p in fs && fs[p] == FileEntry([])
  }

  /** A step that writes nothing and gives up nothing. */
  lemma SameFsKeepsDropped(s: State, t: State)
    requires DroppedInv(s) && t.fs == s.fs
    requires forall p :: p in t.stage && t.stage[p].Dropped? ==> p in s.stage && s.stage[p].Dropped?
    ensures DroppedInv(t)
  {
  }

  /** A step that writes at one path, at which nothing was given up. */
  lemma WriteKeepsDropped(s: State, t: State, q: Path)
    requires DroppedInv(s) && q in t.fs && t.fs == s.fs[q := t.fs[q]]
    requires q in t.stage ==> !t.stage[q].Dropped?
    requires forall p :: p in t.stage && p != q ==> p in s.stage && t.stage[p] == s.stage[p]
    ensures DroppedInv(t)
  {
  }

  lemma DropsKeepsDropped(s: State, t: State, f: Make)
    requires DroppedInv(s) && ContentInv(s) && Drops(s, t, f)
    ensures DroppedInv(t)
  {
    assert f in Pending(s.manager);
    assert FsHas(s.fs, f, 0);
  }

  /** What is still to be made is at a path where nothing was opened. */
  lemma MakesKeepsDropped(s: State, t: State, m: Make)
    requires DroppedInv(s) && StageInv(s) && Makes(s, t, m)
    ensures DroppedInv(t)
  {
    assert m == Todo(s.stack)[0];
    hide Todo, ItemsInv, HolderInv, DroppedInv;
    WriteKeepsDropped(s, t, m.path);
  }

  lemma WritesKeepsDropped(s: State, t: State, w: nat, f: Make, off: nat, n: nat)
    requires DroppedInv(s) && StageInv(s) && Writes(s, t, w, f, off, n)
    ensures DroppedInv(t)
  {
    hide CloseInv, HolderInv, DroppedInv;
    assert Load(s.workers[w]) == Some(f) && IsAt(s.stage, f, With(w));
    WriteKeepsDropped(s, t, f.path);
  }

  /** The part of the plan that the walk has passed. */
  function Done(plan: seq<Make>, s: State): seq<Make>
    requires IsSuffix(Todo(s.stack), plan)
  {
    plan[..|plan| - |Todo(s.stack)|]
  }

  ghost predicate IsMade(s: State, m: Make) {
    if m.entry.FileEntry? then m.path in s.stage else m.path in s.fs && s.fs[m.path] == m.entry
  }

  /** Unless a stop was requested, everything that the walk has passed was made ... */
  ghost predicate MadeInv(plan: seq<Make>, s: State)
    requires IsSuffix(Todo(s.stack), plan)
  {
    !s.stopped ==> forall m :: m in Done(plan, s) ==> IsMade(s, m)
  }

  /** ... and nothing else has changed in the destination, which was `fs1`. */
  ghost predicate FrameInv(plan: seq<Make>, fs1: map<Path, Entry>, s: State) {
    forall p :: !PathIn(p, plan) ==> (p in s.fs <==> p in fs1) && (p in fs1 ==> s.fs[p] == fs1[p])
  }

  ghost predicate TreeInv(plan: seq<Make>, fs1: map<Path, Entry>, s: State) {
    && IsSuffix(Todo(s.stack), plan) && s.added <= Files(plan)
    && MadeInv(plan, s) && FrameInv(plan, fs1, s)
  }

  lemma PassOne(plan: seq<Make>, s: State, t: State, m: Make)
    requires IsSuffix(Todo(s.stack), plan) && IsSuffix(Todo(t.stack), plan)
    requires Todo(s.stack) == [m] + Todo(t.stack)
    ensures Done(plan, t) == Done(plan, s) + [m] && m in plan
    ensures DistinctPaths(plan) ==> forall d :: d in Done(plan, s) ==> d.path != m.path
  {
    var k := |plan| - |Todo(s.stack)|;
    assert plan[k] == plan[k..][0] == m;
    if DistinctPaths(plan) {
      forall d | d in Done(plan, s)
        ensures d.path != m.path
      {
        var i :| 0 <= i < k && plan[i] == d;
      }
    }
  }

  lemma MakesKeepsTree(plan: seq<Make>, fs1: map<Path, Entry>, s: State, t: State, m: Make)
    requires DistinctPaths(plan) && TreeInv(plan, fs1, s) && Makes(s, t, m) && OrderInv(plan, t)
    ensures TreeInv(plan, fs1, t)
  {
    hide Todo, Files;
    PassOne(plan, s, t, m);
    assert PathIn(m.path, plan);
  }

  lemma OpensKeepsTree(plan: seq<Make>, fs1: map<Path, Entry>, s: State, t: State, f: Make)
    requires DistinctPaths(plan) && TreeInv(plan, fs1, s) && Opens(s, t, f) && OrderInv(plan, t)
    ensures TreeInv(plan, fs1, t)
  {
    hide Todo, Files;
    PassOne(plan, s, t, f);
    assert PathIn(f.path, plan);
  }

  /** An added file is of the plan, which has nothing else at its path. */
  lemma AddedIsPlanned(plan: seq<Make>, s: State, f: Make)
    requires DistinctPaths(plan) && s.added <= Files(plan) && f in s.added
    ensures PathIn(f.path, plan)
    ensures forall m :: m in plan && !m.entry.FileEntry? ==> m.path != f.path
  {
    FilesAreOfPlan(plan);
    assert f in Files(plan);
    forall m | m in plan && !m.entry.FileEntry?
      ensures m.path != f.path
    {
      var i :| 0 <= i < |plan| && plan[i] == m;
      var j :| 0 <= j < |plan| && plan[j] == f;
      assert i != j;
    }
  }

  lemma WritesKeepsTree(plan: seq<Make>, fs1: map<Path, Entry>, s: State, t: State, w: nat, f: Make, off: nat, n: nat)
    requires DistinctPaths(plan) && StageInv(s) && TreeInv(plan, fs1, s) && Writes(s, t, w, f, off, n)
    ensures TreeInv(plan, fs1, t)
  {
    hide HolderInv, CloseInv;
    hide Todo, Files;
    assert Load(s.workers[w]) == Some(f) && f in s.added;
    AddedIsPlanned(plan, s, f);
    assert t.stack == s.stack && t.stage == s.stage && t.stopped == s.stopped;
    if !t.stopped {
      forall m | m in Done(plan, t)
        ensures IsMade(t, m)
      {
        assert m in Done(plan, s) && m in plan && IsMade(s, m);
      }
    }
  }

  /** A step that writes nothing and forgets no opened file. */
  lemma OtherKeepsTree(plan: seq<Make>, fs1: map<Path, Entry>, s: State, t: State)
    requires TreeInv(plan, fs1, s) && t.fs == s.fs && t.stage.Keys >= s.stage.Keys
    requires (Todo(t.stack) == Todo(s.stack) && (s.stopped ==> t.stopped)) || t.stopped
    requires OrderInv(plan, t)
    ensures TreeInv(plan, fs1, t)
  {
    hide Todo, Files;
    if !t.stopped {
      assert Done(plan, t) == Done(plan, s);
      forall m | m in Done(plan, t)
        ensures IsMade(t, m)
      {
        assert IsMade(s, m);
      }
    }
  }

  // ------------------------------------------------------------------------ the counters

  /** Has a file that `num_files_copied` does not count yet. */
  predicate Busy(k: Worker) { k.Copying? || k.Tallying? || k.Counting? }

  /** The bytes that a worker has yet to add to `total_bytes_copied` for its file. */
  function Debt(k: Worker): nat {
    match k
    case Copying(f, off) => if off <= Size(f) then Size(f) - off else 0
    case Tallying(f, off, n) => if off <= Size(f) then Size(f) - off + n else n
    case _ => 0
  }

  predicate IsDir(e: Entry) { e.DirEntry? }
  predicate IsFifo(e: Entry) { e.FifoEntry? }

  ghost predicate CountInv(plan: seq<Make>, s: State) {
    && s.filesCopied + Count(s.workers, Busy) + |s.buffer| == |s.added|
    && s.bytesCopied + Sum(s.workers, Debt) + TotalSize(s.buffer) == TotalSize(s.added)
    && (!s.stopped ==>
          && s.directories + CountOf(Todo(s.stack), IsDir) == CountOf(plan, IsDir)
          && s.fifos + CountOf(Todo(s.stack), IsFifo) == CountOf(plan, IsFifo))
  }

  predicate SameBooks(s: State, t: State) {
    && t.filesCopied == s.filesCopied && t.bytesCopied == s.bytesCopied
    && t.buffer == s.buffer && t.added == s.added
  }

  /** A step after which every worker owes what it owed. */
  lemma SameDebtsKeepCount(plan: seq<Make>, s: State, t: State)
    requires CountInv(plan, s) && SameBooks(s, t) && |t.workers| == |s.workers|
    requires forall w :: 0 <= w < |s.workers| ==>
               Busy(t.workers[w]) == Busy(s.workers[w]) && Debt(t.workers[w]) == Debt(s.workers[w])
    requires t.stopped || (Todo(t.stack) == Todo(s.stack) && !s.stopped
                           && t.directories == s.directories && t.fifos == s.fifos)
    ensures CountInv(plan, t)
  {
    SameTo(s.workers, t.workers, |s.workers|, Busy, Debt);
  }

  lemma AddsKeepsCount(plan: seq<Make>, s: State, t: State, f: Make, wake: nat)
    requires CountInv(plan, s) && Adds(s, t, f) && t.workers == WakeOne(s.workers, wake)
    requires t.stack == s.stack
    ensures CountInv(plan, t)
  {
    TotalSizeConcat(s.buffer, [f]);
    TotalSizeConcat(s.added, [f]);
    SameTo(s.workers, t.workers, |s.workers|, Busy, Debt);
  }

  lemma TakesKeepsCount(plan: seq<Make>, s: State, t: State, w: nat, f: Make)
    requires CountInv(plan, s) && Takes(s, t, w, f)
    ensures CountInv(plan, t)
  {
    CountUpdate(s.workers, w, Copying(f, 0), Busy);
    SumUpdate(s.workers, w, Copying(f, 0), Debt);
  }

  /** The other steps of a worker, on the counters alone. */
  lemma WorkKeepsCount(plan: seq<Make>, s: State, t: State, w: nat)
    requires CountInv(plan, s) && w < |s.workers| && |t.workers| == |s.workers|
    requires t.workers == s.workers[w := t.workers[w]]
    requires t.buffer == s.buffer && t.added == s.added && t.stack == s.stack && t.stopped == s.stopped
    requires t.directories == s.directories && t.fifos == s.fifos
    requires t.filesCopied + One(Busy(t.workers[w])) == s.filesCopied + One(Busy(s.workers[w]))
    requires t.bytesCopied + Debt(t.workers[w]) == s.bytesCopied + Debt(s.workers[w])
    ensures CountInv(plan, t)
  {
    CountUpdate(s.workers, w, t.workers[w], Busy);
    SumUpdate(s.workers, w, t.workers[w], Debt);
  }

  /** The walk counts the directory or FIFO that it makes. */
  lemma MakesKeepsCount(plan: seq<Make>, s: State, t: State, m: Make)
    requires CountInv(plan, s) && SameBooks(s, t) && t.workers == s.workers && t.stopped == s.stopped
    requires Todo(s.stack) == [m] + Todo(t.stack)
    requires t.directories == s.directories + One(IsDir(m.entry)) && t.fifos == s.fifos + One(IsFifo(m.entry))
    ensures CountInv(plan, t)
  {
    assert Todo(s.stack)[1..] == Todo(t.stack);
  }

  // ------------------------------------------------------------ every step keeps all of it

  ghost predicate Inv(plan: seq<Make>, fs1: map<Path, Entry>, s: State) {
    && DistinctPaths(plan)
    && SyncInv(s) && OrderInv(plan, s)
    && StageInv(s) && ContentInv(s) && DroppedInv(s) && TreeInv(plan, fs1, s) && CountInv(plan, s)
  }

  /** What the walk's next step does, by what it finds. */
  lemma WalkIs(s: State)
    requires s.manager.Walking?
    ensures var t, make := Walk(s), NextMake(s);
            if make == [] then
              Still(s, t) && SameBooks(s, t) && t.workers == s.workers && t.stopped == s.stopped
              && t.directories == s.directories && t.fifos == s.fifos
            else if make[0].entry.FileEntry? then
              Opens(s, t, make[0])
            else
              Makes(s, t, make[0]) && SameBooks(s, t)
              && t.directories == s.directories + One(IsDir(make[0].entry))
              && t.fifos == s.fifos + One(IsFifo(make[0].entry))
  {
    hide Todo, Plan;
    WalkTodo(s);
    if s.stack != [] && s.stack[0].rest != [] {
      match s.stack[0].rest[0]
      case Dir(_, _) =>
      case File(_, _) =>
      case Fifo(_) =>
      case Other(_) =>
    }
  }

  lemma TodoIsDistinct(plan: seq<Make>, s: State)
    requires DistinctPaths(plan) && OrderInv(plan, s)
    ensures DistinctPaths(Todo(s.stack))
  {
    var xs := Todo(s.stack);
    assert forall i :: 0 <= i < |xs| ==> xs[i] == plan[|plan| - |xs| + i];
  }

  lemma OpensKeepsInv(plan: seq<Make>, fs1: map<Path, Entry>, s: State, t: State, f: Make)
    requires Inv(plan, fs1, s) && Opens(s, t, f) && SyncInv(t) && OrderInv(plan, t)
    ensures Inv(plan, fs1, t)
  {
    hide SyncInv, OrderInv, StageInv, ContentInv, DroppedInv, TreeInv, CountInv;
    TodoIsDistinct(plan, s);
    OpensKeepsStage(s, t, f);
    OpensKeepsContent(s, t, f);
    WriteKeepsDropped(s, t, f.path);
    OpensKeepsTree(plan, fs1, s, t, f);
    MakesKeepsCount(plan, s, t, f);
  }

  lemma WalkKeepsInv(plan: seq<Make>, fs1: map<Path, Entry>, s: State)
    requires Inv(plan, fs1, s) && s.manager.Walking?
    ensures Inv(plan, fs1, Walk(s))
  {
    hide SyncInv, OrderInv, StageInv, ContentInv, DroppedInv, TreeInv, CountInv;
    var t, make := Walk(s), NextMake(s);
    WalkIs(s);
    WalkKeepsSync(s);
    WalkKeepsOrder(plan, s);
    if make == [] {
      QuietKeepsStage(s, t);
      StillKeepsContent(s, t);
      SameFsKeepsDropped(s, t);
      OtherKeepsTree(plan, fs1, s, t);
      SameDebtsKeepCount(plan, s, t);
    } else if make[0].entry.FileEntry? {
      OpensKeepsInv(plan, fs1, s, t, make[0]);
    } else {
      WalkTodo(s);
      QuietKeepsStage(s, t);
      MakesKeepsContent(s, t, make[0]);
      MakesKeepsDropped(s, t, make[0]);
      MakesKeepsTree(plan, fs1, s, t, make[0]);
      MakesKeepsCount(plan, s, t, make[0]);
    }
  }

  lemma DropsKeepsInv(plan: seq<Make>, fs1: map<Path, Entry>, s: State, t: State, f: Make)
    requires Inv(plan, fs1, s) && Drops(s, t, f) && SyncInv(t) && OrderInv(plan, t)
    ensures Inv(plan, fs1, t)
  {
    hide SyncInv, OrderInv, StageInv, ContentInv, DroppedInv, TreeInv, CountInv;
    DropsKeepsStage(s, t, f);
    DropsKeepsContent(s, t, f);
    DropsKeepsDropped(s, t, f);
    OtherKeepsTree(plan, fs1, s, t);
    SameDebtsKeepCount(plan, s, t);
  }

  lemma AddsKeepsInv(plan: seq<Make>, fs1: map<Path, Entry>, s: State, t: State, f: Make, wake: nat)
    requires Inv(plan, fs1, s) && Adds(s, t, f) && t.workers == WakeOne(s.workers, wake)
    requires t.stack == s.stack && SyncInv(t) && OrderInv(plan, t)
    requires SameOffsets(s.workers, t.workers)
    ensures Inv(plan, fs1, t)
  {
    hide SyncInv, OrderInv, StageInv, ContentInv, DroppedInv, TreeInv, CountInv;
    AddsKeepsStage(s, t, f);
    AddsKeepsContent(s, t, f);
    SameFsKeepsDropped(s, t);
    OtherKeepsTree(plan, fs1, s, t);
    AddsKeepsCount(plan, s, t, f, wake);
  }

  /** A step that only puts threads to sleep or wakes them. */
  predicate OnlySchedules(s: State, t: State) {
    && t == s.(manager := t.manager, workers := t.workers, done := t.done, stopped := t.stopped)
    && Pending(t.manager) == Pending(s.manager) && (s.stopped ==> t.stopped)
    && SameLoads(s.workers, t.workers) && SameOffsets(s.workers, t.workers)
    && (forall w :: 0 <= w < |s.workers| ==>
          Busy(t.workers[w]) == Busy(s.workers[w]) && Debt(t.workers[w]) == Debt(s.workers[w]))
  }

  lemma SchedulesKeepsInv(plan: seq<Make>, fs1: map<Path, Entry>, s: State, t: State)
    requires Inv(plan, fs1, s) && OnlySchedules(s, t) && SyncInv(t) && OrderInv(plan, t)
    ensures Inv(plan, fs1, t)
  {
    hide SyncInv, OrderInv, StageInv, ContentInv, DroppedInv, TreeInv, CountInv;
    QuietKeepsStage(s, t);
    StillKeepsContent(s, t);
    SameFsKeepsDropped(s, t);
    OtherKeepsTree(plan, fs1, s, t);
    SameDebtsKeepCount(plan, s, t);
  }

  lemma AddIs(plan: seq<Make>, s: State, f: Make, wake: nat)
    requires OrderInv(plan, s) && s.manager == Adding(f) && s.stack != []
    ensures var t := Add(s, f, wake);
            if s.done then Drops(s, t, f)
            else if |s.buffer| >= s.size then OnlySchedules(s, t)
            else Adds(s, t, f) && t.workers == WakeOne(s.workers, wake) && t.stack == s.stack
                 && SameOffsets(s.workers, t.workers)
  {
    if s.done {
      assert Todo(s.stack) == Plan(s.stack[0].path, s.stack[0].rest) + Todo(s.stack[1..]);
    }
  }

  lemma AddKeepsInv(plan: seq<Make>, fs1: map<Path, Entry>, s: State, f: Make, wake: nat)
    requires Inv(plan, fs1, s) && Enabled(s, Manage(wake)) && s.manager == Adding(f)
    ensures Inv(plan, fs1, Add(s, f, wake))
  {
    hide SyncInv, OrderInv, StageInv, ContentInv, DroppedInv, TreeInv, CountInv;
    var t := Add(s, f, wake);
    AddKeepsSync(s, wake);
    AddKeepsOrder(plan, s, f, wake);
    AddIs(plan, s, f, wake);
    if s.done {
      DropsKeepsInv(plan, fs1, s, t, f);
    } else if |s.buffer| >= s.size {
      SchedulesKeepsInv(plan, fs1, s, t);
    } else {
      AddsKeepsInv(plan, fs1, s, t, f, wake);
    }
  }

  lemma OrderFrame(plan: seq<Make>, s: State, t: State)
    requires OrderInv(plan, s) && t.stack == s.stack && t.added == s.added
    requires t.done == s.done && t.stopped == s.stopped
    requires Pending(t.manager) == Pending(s.manager) && ManagerArrived(t.manager) == ManagerArrived(s.manager)
    ensures OrderInv(plan, t)
  {
  }

  lemma FetchIs(s: State, w: nat)
    requires w < |s.workers| && s.workers[w].Fetching?
    ensures var t := Fetch(s, w);
            && ManagerArrived(t.manager) == ManagerArrived(s.manager)
            && if s.buffer == [] then OnlySchedules(s, t) && t.done == s.done && t.stopped == s.stopped
               else Takes(s, t, w, s.buffer[0])
  {
  }

  lemma TakesKeepsInv(plan: seq<Make>, fs1: map<Path, Entry>, s: State, t: State, w: nat, f: Make)
    requires Inv(plan, fs1, s) && Takes(s, t, w, f) && SyncInv(t) && OrderInv(plan, t)
    ensures Inv(plan, fs1, t)
  {
    hide SyncInv, OrderInv, StageInv, ContentInv, DroppedInv, TreeInv, CountInv;
    TakesKeepsStage(s, t, w, f);
    TakesKeepsContent(s, t, w, f);
    SameFsKeepsDropped(s, t);
    OtherKeepsTree(plan, fs1, s, t);
    TakesKeepsCount(plan, s, t, w, f);
  }

  lemma FetchKeepsInv(plan: seq<Make>, fs1: map<Path, Entry>, s: State, w: nat)
    requires Inv(plan, fs1, s) && w < |s.workers| && s.workers[w].Fetching?
    ensures Inv(plan, fs1, Fetch(s, w))
  {
    hide SyncInv, OrderInv, StageInv, ContentInv, DroppedInv, TreeInv, CountInv;
    var t := Fetch(s, w);
    FetchKeepsSync(s, w);
    FetchIs(s, w);
    OrderFrame(plan, s, t);
    if s.buffer == [] {
      SchedulesKeepsInv(plan, fs1, s, t);
    } else {
      TakesKeepsInv(plan, fs1, s, t, w, s.buffer[0]);
    }
  }

  lemma CopyIs(s: State, w: nat, n: nat, f: Make, off: nat)
    requires Enabled(s, Work(w, n)) && s.workers[w] == Copying(f, off)
    ensures var t := Works(s, w, n);
            if off < Size(f) then Writes(s, t, w, f, off, n) && Quiet(s, t) else Closes(s, t, w, f)
  {
  }

  lemma WritesKeepsInv(plan: seq<Make>, fs1: map<Path, Entry>, s: State, t: State, w: nat, f: Make, off: nat, n: nat)
    requires Inv(plan, fs1, s) && Writes(s, t, w, f, off, n) && Quiet(s, t) && SyncInv(t)
    ensures Inv(plan, fs1, t)
  {
    hide SyncInv, OrderInv, StageInv, ContentInv, DroppedInv, TreeInv, CountInv;
    OrderFrame(plan, s, t);
    QuietKeepsStage(s, t);
    WritesKeepsContent(s, t, w, f, off, n);
    WritesKeepsDropped(s, t, w, f, off, n);
    WritesKeepsTree(plan, fs1, s, t, w, f, off, n);
    WorkKeepsCount(plan, s, t, w);
  }

  lemma ClosesKeepsInv(plan: seq<Make>, fs1: map<Path, Entry>, s: State, t: State, w: nat, f: Make)
    requires Inv(plan, fs1, s) && Closes(s, t, w, f) && Offset(s.workers[w]) >= Size(f) && SyncInv(t)
    ensures Inv(plan, fs1, t)
  {
    hide SyncInv, OrderInv, StageInv, ContentInv, DroppedInv, TreeInv, CountInv;
    OffsetWithin(s, w);
    OrderFrame(plan, s, t);
    ClosesKeepsStage(s, t, w, f);
    ClosesKeepsContent(s, t, w, f);
    SameFsKeepsDropped(s, t);
    OtherKeepsTree(plan, fs1, s, t);
    WorkKeepsCount(plan, s, t, w);
  }

  /** A worker counts bytes or a file, or passes the barrier. */
  predicate Books(s: State, t: State, w: nat) {
    && w < |s.workers| && |t.workers| == |s.workers| && t.workers == s.workers[w := t.workers[w]]
    && t == s.(workers := t.workers, filesCopied := t.filesCopied, bytesCopied := t.bytesCopied)
    && Load(t.workers[w]) == Load(s.workers[w]) && Offset(t.workers[w]) == Offset(s.workers[w])
    && t.filesCopied + One(Busy(t.workers[w])) == s.filesCopied + One(Busy(s.workers[w]))
    && t.bytesCopied + Debt(t.workers[w]) == s.bytesCopied + Debt(s.workers[w])
  }

  lemma BookIs(s: State, w: nat, n: nat)
    requires Enabled(s, Work(w, n)) && !s.workers[w].Fetching? && !s.workers[w].Copying?
    requires s.workers[w].Tallying? ==> s.workers[w].off <= Size(s.workers[w].f)
    ensures Books(s, Works(s, w, n), w)
  {
    match s.workers[w]
    case Tallying(_, _, _) =>
    case Counting =>
    case WorkerWaits =>
    case _ =>
  }

  lemma BooksKeepsInv(plan: seq<Make>, fs1: map<Path, Entry>, s: State, t: State, w: nat)
    requires Inv(plan, fs1, s) && Books(s, t, w) && SyncInv(t)
    ensures Inv(plan, fs1, t)
  {
    hide SyncInv, OrderInv, StageInv, ContentInv, DroppedInv, TreeInv, CountInv;
    OrderFrame(plan, s, t);
    QuietKeepsStage(s, t);
    StillKeepsContent(s, t);
    SameFsKeepsDropped(s, t);
    OtherKeepsTree(plan, fs1, s, t);
    WorkKeepsCount(plan, s, t, w);
  }

  /** What a worker has written is part of its file. */
  lemma OffsetWithin(s: State, w: nat)
    requires StageInv(s) && ContentInv(s) && w < |s.workers| && Load(s.workers[w]).Some?
    ensures Offset(s.workers[w]) <= Size(Load(s.workers[w]).value)
  {
    var f := Load(s.workers[w]).value;
    assert f in s.added && Progress(s, f) == Offset(s.workers[w]);
  }

  lemma WorkKeepsInv(plan: seq<Make>, fs1: map<Path, Entry>, s: State, w: nat, n: nat)
    requires Inv(plan, fs1, s) && Enabled(s, Work(w, n))
    ensures Inv(plan, fs1, Works(s, w, n))
  {
    hide SyncInv, OrderInv, StageInv, ContentInv, DroppedInv, TreeInv, CountInv;
    var t := Works(s, w, n);
    if s.workers[w].Fetching? {
      FetchKeepsInv(plan, fs1, s, w);
    } else {
      OtherWorkKeepsSync(s, w, n);
      if s.workers[w].Copying? {
        var Copying(f, off) := s.workers[w];
        CopyIs(s, w, n, f, off);
        if off < Size(f) {
          WritesKeepsInv(plan, fs1, s, t, w, f, off, n);
        } else {
          ClosesKeepsInv(plan, fs1, s, t, w, f);
        }
      } else {
        if s.workers[w].Tallying? {
          OffsetWithin(s, w);
        }
        BookIs(s, w, n);
        BooksKeepsInv(plan, fs1, s, t, w);
      }
    }
  }

  lemma ManageKeepsInv(plan: seq<Make>, fs1: map<Path, Entry>, s: State, wake: nat)
    requires Inv(plan, fs1, s) && Enabled(s, Manage(wake))
    ensures Inv(plan, fs1, Manages(s, wake))
  {
    hide SyncInv, OrderInv, StageInv, ContentInv, DroppedInv, TreeInv, CountInv;
    if s.manager.Walking? {
      WalkKeepsInv(plan, fs1, s);
    } else if s.manager.Adding? {
      AddKeepsInv(plan, fs1, s, s.manager.f, wake);
    } else {
      EndKeepsSync(s, wake);
      EndIs(s, wake);
      ManageKeepsOrder(plan, s, wake);
      SchedulesKeepsInv(plan, fs1, s, Manages(s, wake));
    }
  }

  lemma WakeupIs(plan: seq<Make>, s: State, a: Action)
    requires OrderInv(plan, s) && Enabled(s, a) && (a.Stop? || a.SpuriousManager? || a.SpuriousWorker?)
    ensures OnlySchedules(s, Do(s, a)) && OrderInv(plan, Do(s, a))
  {
  }

  lemma EndIs(s: State, wake: nat)
    requires Enabled(s, Manage(wake)) && (s.manager.Finishing? || s.manager.ManagerWaits?)
    ensures OnlySchedules(s, Manages(s, wake))
  {
  }

  lemma WakeupKeepsInv(plan: seq<Make>, fs1: map<Path, Entry>, s: State, a: Action)
    requires Inv(plan, fs1, s) && Enabled(s, a) && (a.Stop? || a.SpuriousManager? || a.SpuriousWorker?)
    ensures Inv(plan, fs1, Do(s, a))
  {
    hide SyncInv, OrderInv, StageInv, ContentInv, DroppedInv, TreeInv, CountInv;
    StepKeepsSync(s, a);
    WakeupIs(plan, s, a);
    SchedulesKeepsInv(plan, fs1, s, Do(s, a));
  }

  lemma StepKeepsInv(plan: seq<Make>, fs1: map<Path, Entry>, s: State, a: Action)
    requires Inv(plan, fs1, s) && Enabled(s, a)
    ensures Inv(plan, fs1, Do(s, a))
  {
    hide SyncInv, OrderInv, StageInv, ContentInv, DroppedInv, TreeInv, CountInv;
    match a
    case Manage(wake) => ManageKeepsInv(plan, fs1, s, wake);
    case Work(w, n) => WorkKeepsInv(plan, fs1, s, w, n);
    case _ => WakeupKeepsInv(plan, fs1, s, a);
  }

  // ------------------------------------------------------------ what every run guarantees

  /** Some run of a copier with this buffer size and these workers leads to `s`. */
  ghost predicate Reachable(size: nat, workers: nat, tree: seq<Node>, fs0: map<Path, Entry>, s: State) {
    WellFormed(tree) && Reaches(Step, Init(size, workers, tree, fs0), s)
  }

  lemma InitCrew(workers: nat)
    ensures var all := seq(workers, _ => Fetching);
            && CrewOf(all) == Crew(workers, 0, workers, 0, 0)
            && Count(all, Busy) == 0 && Sum(all, Debt) == 0
  {
    var all := seq(workers, _ => Fetching);
    InitCrewTo(all, workers);
  }

  lemma {:induction false} InitCrewTo(all: seq<Worker>, n: nat)
    requires n <= |all| && forall k :: k in all ==> k == Fetching
    ensures CountTo(all, n, Asleep) == 0 && CountTo(all, n, Awake) == n
    ensures CountTo(all, n, Arrived) == 0 && CountTo(all, n, Gone) == 0
    ensures CountTo(all, n, Busy) == 0 && SumTo(all, n, Debt) == 0
  {
    if n > 0 {
      InitCrewTo(all, n - 1);
      assert all[n - 1] in all;
    }
  }

  lemma InitTodo(tree: seq<Node>)
    ensures Todo([Frame([], tree)]) == Plan([], tree)
  {
    PushTodo([], tree, []);
    assert [Frame([], tree)] + [] == [Frame([], tree)] && Plan([], tree) + [] == Plan([], tree);
  }

  lemma InitOrder(size: nat, workers: nat, tree: seq<Node>, fs0: map<Path, Entry>)
    ensures OrderInv(Plan([], tree), Init(size, workers, tree, fs0))
    ensures TreeInv(Plan([], tree), fs0[[] := DirEntry], Init(size, workers, tree, fs0))
  {
    InitTodo(tree);
    assert [] + [] + Files(Plan([], tree)) == Files(Plan([], tree));
  }

  lemma InitSync(size: nat, workers: nat, tree: seq<Node>, fs0: map<Path, Entry>)
    ensures SyncInv(Init(size, workers, tree, fs0))
  {
    InitCrew(workers);
  }

  /** Nothing has been opened yet. */
  lemma InitStage(size: nat, workers: nat, tree: seq<Node>, fs0: map<Path, Entry>)
    ensures var s := Init(size, workers, tree, fs0); StageInv(s) && ContentInv(s) && DroppedInv(s)
  {
    hide Todo;
  }

  lemma InitCount(size: nat, workers: nat, tree: seq<Node>, fs0: map<Path, Entry>)
    ensures CountInv(Plan([], tree), Init(size, workers, tree, fs0))
  {
    hide Plan;
    InitTodo(tree);
    InitCrew(workers);
  }

  lemma InitInv(size: nat, workers: nat, tree: seq<Node>, fs0: map<Path, Entry>)
    requires WellFormed(tree)
    ensures Inv(Plan([], tree), fs0[[] := DirEntry], Init(size, workers, tree, fs0))
  {
    PlanHasDistinctPaths([], tree);
    hide SyncInv, OrderInv, StageInv, ContentInv, DroppedInv, TreeInv, CountInv, Plan, WellFormed, Init;
    InitSync(size, workers, tree, fs0);
    InitOrder(size, workers, tree, fs0);
    InitStage(size, workers, tree, fs0);
    InitCount(size, workers, tree, fs0);
  }

  lemma ReachableInv(size: nat, workers: nat, tree: seq<Node>, fs0: map<Path, Entry>, s: State)
    requires Reachable(size, workers, tree, fs0, s)
    ensures Inv(Plan([], tree), fs0[[] := DirEntry], s) && s.size == size && |s.workers| == workers
  {
    hide Inv, SizesAre;
    var plan, fs1 := Plan([], tree), fs0[[] := DirEntry];
    var inv := (t: State) => Inv(plan, fs1, t) && SizesAre(t, size, workers);
    assert SizesAre(Init(size, workers, tree, fs0), size, workers) by { InitSizes(size, workers, tree, fs0); }
    InitInv(size, workers, tree, fs0);
    forall t, a | inv(t) && Step(t, a).Some?
      ensures inv(Step(t, a).value)
    {
      StepKeepsInv(plan, fs1, t, a);
      StepKeepsSizes(t, a, size, workers);
    }
    ReachesKeeps(Step, inv, Init(size, workers, tree, fs0), s);
    SizesAreSo(s, size, workers);
  }

  predicate SizesAre(s: State, size: nat, workers: nat) {
    s.size == size && |s.workers| == workers
  }

  lemma SizesAreSo(s: State, size: nat, workers: nat)
    requires SizesAre(s, size, workers)
    ensures s.size == size && |s.workers| == workers
  {
  }

  lemma InitSizes(size: nat, workers: nat, tree: seq<Node>, fs0: map<Path, Entry>)
    ensures SizesAre(Init(size, workers, tree, fs0), size, workers)
  {
  }

  lemma StepKeepsSizes(s: State, a: Action, size: nat, workers: nat)
    requires SizesAre(s, size, workers) && Enabled(s, a)
    ensures SizesAre(Do(s, a), size, workers)
  {
    match a
    case Manage(wake) =>
      if s.manager.Walking? {
        WalkFrame(s);
      }
    case Work(w, n) =>
      if !s.workers[w].Fetching? {
        OtherWorkFrame(s, w, n);
      }
    case _ =>
  }

  // The barrier.

  /** When the barrier opens nothing is left in the program, if there is a worker at it. */
  lemma NothingLeft(s: State)
    requires SyncInv(s) && BarrierOpen(s) && (|s.workers| >= 1 || s.buffer == [])
    ensures NothingHeld(s) && s.stack == []
    ensures Count(s.workers, Busy) == 0 && Sum(s.workers, Debt) == 0
  {
    ArrivedOnly(s.workers, |s.workers|);
  }

  /** Where nothing was added there is nothing in the buffer. */
  lemma NothingAddedNothingLeft(s: State)
    requires ItemsInv(s) && s.added == []
    ensures s.buffer == []
  {
    BufferWasAdded(s);
  }

  lemma BufferWasAdded(s: State)
    requires ItemsInv(s)
    ensures |s.buffer| > 0 ==> |s.added| > 0
  {
    if |s.buffer| > 0 {
      var f := s.buffer[0];
      assert f in s.buffer && f in s.added;
    }
  }

  lemma NoFilesNothingAdded(plan: seq<Make>, s: State)
    requires OrderInv(plan, s) && Files(plan) == []
    ensures s.added == [] && (!s.stopped ==> Pending(s.manager) == [])
  {
  }

  lemma {:induction false} ArrivedOnly(workers: seq<Worker>, n: nat)
    requires n <= |workers|
    ensures CountTo(workers, n, Arrived) <= n
    ensures CountTo(workers, n, Arrived) == n ==>
              && (forall w :: 0 <= w < n ==> Arrived(workers[w]))
              && CountTo(workers, n, Busy) == 0 && SumTo(workers, n, Debt) == 0
  {
    if n > 0 {
      ArrivedOnly(workers, n - 1);
    }
  }

  ghost predicate NothingHeld(s: State) {
    && s.buffer == [] && Pending(s.manager) == []
    && forall w :: 0 <= w < |s.workers| ==> Load(s.workers[w]) == None
  }

  lemma StageIsClosed(s: State, p: Path)
    requires StageInv(s) && NothingHeld(s) && p in s.stage
    ensures Closed(s.stage[p])
  {
    hide Todo;
    assert HasHolder(s, p);
  }

  lemma AddedIsCopied(s: State, f: Make)
    requires StageInv(s) && ContentInv(s) && NothingHeld(s) && f in s.added
    ensures f.path in s.stage && s.stage[f.path].Copied? && s.stage[f.path].w < |s.workers|
    ensures f.path in s.fs && s.fs[f.path] == f.entry
  {
    hide Todo;
    assert HasHolder(s, f.path) && FsHas(s.fs, f, Progress(s, f));
    assert f.entry.content[..Size(f)] == f.entry.content;
  }

  /** Whether or not a stop was requested, when the barrier opens: the files that were added
      come first in the depth-first order of the tree, each was taken by one worker and is in
      the destination as it is in the source, and the counters say so; and the descriptors of
      every file that was opened were closed exactly once.  A file that was opened and given up
      after a stop is left empty. */
  lemma AddedFilesAreCopied(size: nat, workers: nat, tree: seq<Node>, fs0: map<Path, Entry>, s: State)
    requires Reachable(size, workers, tree, fs0, s) && BarrierOpen(s) && (workers >= 1 || s.added == [])
    ensures s.buffer == [] && s.added <= Files(Plan([], tree))
    ensures forall f :: f in s.added ==>
              && f.path in s.stage && s.stage[f.path].Copied? && s.stage[f.path].w < |s.workers|
              && f.path in s.fs && s.fs[f.path] == f.entry
    ensures s.filesCopied == |s.added| && s.bytesCopied == TotalSize(s.added)
    ensures forall p :: s.closed[p] == One(p in s.stage)
    ensures forall p :: p in s.stage && !s.stage[p].Copied? ==>
              s.stage[p].Dropped? && p in s.fs && s.fs[p] == FileEntry([])
  {
    hide Todo, Plan, Files, SyncInv, ContentInv, ItemsInv, HolderInv;
    ReachableInv(size, workers, tree, fs0, s);
    if s.added == [] {
      NothingAddedNothingLeft(s);
    }
    NothingLeft(s);
    forall p | p in s.stage
      ensures Closed(s.stage[p])
    {
      StageIsClosed(s, p);
    }
    forall f | f in s.added
      ensures f.path in s.stage && s.stage[f.path].Copied? && s.stage[f.path].w < |s.workers|
      ensures f.path in s.fs && s.fs[f.path] == f.entry
    {
      AddedIsCopied(s, f);
    }
  }

  /** Without a stop, everything of the plan has been made when the barrier opens. */
  lemma PlanIsMade(plan: seq<Make>, fs1: map<Path, Entry>, s: State, m: Make)
    requires Inv(plan, fs1, s) && BarrierOpen(s) && !s.stopped && m in plan
    requires |s.workers| >= 1 || s.buffer == []
    ensures m.path in s.fs && s.fs[m.path] == m.entry
  {
    hide SyncInv, StageInv, ContentInv;
    NothingLeft(s);
    assert Done(plan, s) == plan;
    assert IsMade(s, m);
    if m.entry.FileEntry? {
      FilesAreOfPlan(plan);
      assert s.added + [] + [] == Files(plan);
      AddedIsCopied(s, m);
    }
  }

  /** The destination agrees with the tree at `p`, or is what it was before the copy. */
  ghost predicate Mirrors(tree: seq<Node>, before: map<Path, Entry>, after: map<Path, Entry>, p: Path) {
    match Lookup(tree, p)
    case Some(e) => p in after && after[p] == e
    case None => (p in after <==> p in before) && (p in before ==> after[p] == before[p])
  }

  ghost predicate IsMirror(tree: seq<Node>, before: map<Path, Entry>, after: map<Path, Entry>) {
    forall p :: Mirrors(tree, before, after, p)
  }

  lemma PathMirrored(tree: seq<Node>, fs1: map<Path, Entry>, s: State, p: Path)
    requires WellFormed(tree) && Inv(Plan([], tree), fs1, s) && BarrierOpen(s) && !s.stopped
    requires |s.workers| >= 1 || s.buffer == []
    ensures Mirrors(tree, fs1, s.fs, p)
  {
    hide SyncInv, OrderInv, StageInv, ContentInv, CountInv, MadeInv, Plan, Lookup, WellFormed, Files;
    var plan := Plan([], tree);
    assert [] + p == p;
    match Lookup(tree, p)
    case Some(e) =>
      PlanIsLookup([], tree, p, e);
      PlanIsMade(plan, fs1, s, Make(p, e));
    case None =>
      if PathIn(p, plan) {
        var m :| m in plan && m.path == p;
        PlanIsLookup([], tree, p, m.entry);
      }
  }

  /** The counters that the program prints are those of the whole tree. */
  predicate CountsAll(plan: seq<Make>, s: State) {
    && s.filesCopied == |Files(plan)| && s.bytesCopied == TotalSize(Files(plan))
    && s.directories == CountOf(plan, IsDir) && s.fifos == CountOf(plan, IsFifo)
  }

  lemma NoFilesNothingLeft(plan: seq<Make>, fs1: map<Path, Entry>, s: State)
    requires Inv(plan, fs1, s) && Files(plan) == []
    ensures s.buffer == [] && (!s.stopped ==> Pending(s.manager) == [])
  {
    hide SyncInv, ContentInv, DroppedInv, TreeInv, CountInv, CloseInv, HolderInv, Files;
    NoFilesNothingAdded(plan, s);
    NothingAddedNothingLeft(s);
  }

  /** Without a stop, for every tree, every number of workers but 0, every buffer size and every
      interleaving: when the barrier opens the destination has exactly what the source has, on
      top of what it had before, and the counters are exact.  So it is without workers if there
      is no file. */
  lemma CopyMirrorsSource(size: nat, workers: nat, tree: seq<Node>, fs0: map<Path, Entry>, s: State)
    requires Reachable(size, workers, tree, fs0, s) && BarrierOpen(s) && !s.stopped
    requires workers >= 1 || Files(Plan([], tree)) == []
    ensures IsMirror(tree, fs0[[] := DirEntry], s.fs) && CountsAll(Plan([], tree), s)
  {
    hide SyncInv, StageInv, ContentInv, TreeInv, Plan, WellFormed, Mirrors;
    ReachableInv(size, workers, tree, fs0, s);
    var fs1 := fs0[[] := DirEntry];
    if workers == 0 {
      NoFilesNothingLeft(Plan([], tree), fs1, s);
    }
    NothingLeft(s);
    forall p
      ensures Mirrors(tree, fs1, s.fs, p)
    {
      PathMirrored(tree, fs1, s, p);
    }
    assert s.added + [] + [] == s.added;
  }

  // Stop.

  /** Once `done` is set it stays set and no file is added any more. */
  lemma {:induction false} NothingIsAddedAfterDone(s: State, acts: seq<Action>)
    requires s.done && Exec(Step, s, acts).Some?
    ensures var t := Exec(Step, s, acts).value;
            t.done && t.added == s.added
    decreases |acts|
  {
    if acts != [] {
      DoneStep(s, acts[0]);
      NothingIsAddedAfterDone(Do(s, acts[0]), acts[1..]);
    }
  }

  lemma DoneStep(s: State, a: Action)
    requires s.done && Enabled(s, a)
    ensures Do(s, a).done && Do(s, a).added == s.added
  {
    match a
    case Manage(wake) =>
      if s.manager.Walking? {
        WalkFrame(s);
      }
    case Work(w, n) =>
      if !s.workers[w].Fetching? {
        OtherWorkFrame(s, w, n);
      }
    case _ =>
  }

  // No deadlock.

  /** Neither the manager nor a worker can take a step. */
  ghost predicate Stuck(s: State) {
    (forall wake: nat :: !Enabled(s, Manage(wake))) && (forall w: nat, n: nat :: !Enabled(s, Work(w, n)))
  }

  lemma AwakeCanWork(s: State, w: nat) returns (n: nat)
    requires w < |s.workers| && Awake(s.workers[w])
    ensures Enabled(s, Work(w, n))
  {
    n := 0;
    if s.workers[w].Copying? && s.workers[w].off < Size(s.workers[w].f) {
      n := 1;
    }
  }

  predicate AllGone(s: State) {
    s.manager.ManagerGone? && forall w :: 0 <= w < |s.workers| ==> s.workers[w].WorkerGone?
  }

  /** If nothing can move, everyone has passed the barrier: no wakeup is ever lost, and a manager
      that sleeps when a stop is requested is woken like any other.  Only where there is no room or
      no worker the manager can be left asleep, with a file in hand. */
  lemma StuckOnlyWhenGone(size: nat, workers: nat, tree: seq<Node>, fs0: map<Path, Entry>, s: State)
    requires Reachable(size, workers, tree, fs0, s) && Stuck(s)
    ensures (AllGone(s) && BarrierOpen(s)) || (s.manager.AwaitRoom? && (size == 0 || workers == 0))
  {
    ReachableInv(size, workers, tree, fs0, s);
    SyncedStuck(s);
  }

  /** While a worker sleeps and none is awake, the manager is awake and can wake it. */
  lemma ManagerCanMove(s: State, w: nat)
    requires SyncInv(s) && Count(s.workers, Awake) == 0
    requires w < |s.workers| && Asleep(s.workers[w]) && Count(s.workers, Asleep) > 0
    requires !s.manager.AwaitRoom? || s.size > 0
    ensures Enabled(s, Manage(w))
  {
  }

  lemma SyncedStuck(s: State)
    requires SyncInv(s) && Stuck(s)
    ensures (AllGone(s) && BarrierOpen(s)) || (s.manager.AwaitRoom? && (s.size == 0 || |s.workers| == 0))
  {
    if s.manager.AwaitRoom? && (s.size == 0 || |s.workers| == 0) {
      return;
    }
    if Count(s.workers, Awake) > 0 {
      CountZero(s.workers, Awake);
      var w :| 0 <= w < |s.workers| && Awake(s.workers[w]);
      var n := AwakeCanWork(s, w);
      assert false;
    }
    if Count(s.workers, Asleep) > 0 {
      CountZero(s.workers, Asleep);
      var w: nat :| w < |s.workers| && Asleep(s.workers[w]);
      ManagerCanMove(s, w);
      assert false;
    }
    assert !Enabled(s, Manage(0));
    ArrivedOnly(s.workers, |s.workers|);
    forall w: nat | w < |s.workers|
      ensures s.workers[w].WorkerGone?
    {
      assert !Enabled(s, Work(w, 0));
    }
  }

  // What single steps do.

  /** A file that is added wakes one sleeping worker, if there is one, and nobody else; an item that
      is taken wakes the manager, if it sleeps. */
  lemma SignalsWakeOne(s: State, wake: nat, w: nat)
    ensures Enabled(s, Manage(wake)) && WillAdd(s) ==>
              var t := Do(s, Manage(wake));
              && Count(t.workers, Asleep) == Count(s.workers, Asleep) - One(Count(s.workers, Asleep) > 0)
              && forall v :: 0 <= v < |s.workers| ==>
                   t.workers[v] == s.workers[v] || (v == wake && s.workers[v] == AwaitItem && t.workers[v] == Fetching)
    ensures w < |s.workers| && s.workers[w].Fetching? && s.buffer != [] ==>
              !Do(s, Work(w, 0)).manager.AwaitRoom?
  {
    if Enabled(s, Manage(wake)) && WillAdd(s) {
      CountZero(s.workers, Asleep);
      if wake < |s.workers| {
        CountUpdate(s.workers, wake, Woken(s.workers[wake]), Asleep);
      }
    }
  }

  /** One read returns from 1 to 4096 bytes as long as there are any left. */
  lemma ReadsUpTo4096(s: State, w: nat, f: Make, off: nat, n: nat)
    requires w < |s.workers| && s.workers[w] == Copying(f, off) && off < Size(f)
    ensures Enabled(s, Work(w, n)) <==> 1 <= n <= 4096 && off + n <= Size(f)
  {
  }

  // Termination.

  function NodeCost(n: Node): nat
    decreases n
  {
    match n
    case Dir(_, entries) => 2 + NodesCost(entries)
    case File(_, content) => 2 * |content| + 8
    case Fifo(_) => 1
    case Other(_) => 1
  }

  function NodesCost(nodes: seq<Node>): nat
    decreases nodes
  {
    if nodes == [] then 0 else NodeCost(nodes[0]) + NodesCost(nodes[1..])
  }

  function StackCost(stack: seq<Frame>): nat
    decreases |stack|
  {
    if stack == [] then 0 else 1 + NodesCost(stack[0].rest) + StackCost(stack[1..])
  }

  function WorkerCost(k: Worker): nat {
    match k
    case WorkerGone => 0
    case WorkerWaits => 1
    case AwaitItem => 2
    case Fetching => 3
    case Counting => 4
    case Copying(f, off) => 5 + (if off <= Size(f) then 2 * (Size(f) - off) else 0)
    case Tallying(f, off, _) => 6 + (if off <= Size(f) then 2 * (Size(f) - off) else 0)
  }

  /** `n` is the number of workers that a broadcast may wake. */
  function ManagerCost(m: Manager, n: nat): nat {
    match m
    case Walking => n + 4
    case Adding(f) => n + 11 + 2 * Size(f)
    case AwaitRoom(f) => n + 10 + 2 * Size(f)
    case Finishing => n + 3
    case ManagerWaits => 1
    case ManagerGone => 0
  }

  /** A bound on the steps that are left. */
  function StepsLeft(s: State): nat {
    Sum(s.workers, WorkerCost) + 2 * TotalSize(s.buffer) + 4 * |s.buffer|
    + StackCost(s.stack) + ManagerCost(s.manager, |s.workers|)
    + (if s.done then 0 else |s.workers| + 1)
  }

  predicate IsSpurious(a: Action) { a.SpuriousManager? || a.SpuriousWorker? }

  /** How often a run wakes a thread without a signal. */
  function SpuriousIn(acts: seq<Action>): nat
    decreases |acts|
  {
    if acts == [] then 0 else One(IsSpurious(acts[0])) + SpuriousIn(acts[1..])
  }

  lemma {:induction false} WakeAllCost(workers: seq<Worker>, n: nat)
    requires n <= |workers|
    ensures SumTo(WakeAll(workers), n, WorkerCost) <= SumTo(workers, n, WorkerCost) + n
  {
    if n > 0 {
      WakeAllCost(workers, n - 1);
    }
  }

  lemma PushCost(path: Path, rest: seq<Node>, stack: seq<Frame>)
    ensures StackCost([Frame(path, rest)] + stack) == 1 + NodesCost(rest) + StackCost(stack)
  {
    assert ([Frame(path, rest)] + stack)[1..] == stack;
  }

  lemma WalkCost(s: State)
    requires s.manager.Walking?
    ensures StackCost(Walk(s).stack) + ManagerCost(Walk(s).manager, |s.workers|)
          < StackCost(s.stack) + ManagerCost(s.manager, |s.workers|)
  {
    if s.stack != [] && s.stack[0].rest != [] {
      var Frame(path, rest) := s.stack[0];
      var below := [Frame(path, rest[1..])] + s.stack[1..];
      PushCost(path, rest[1..], s.stack[1..]);
      match rest[0]
      case Dir(name, entries) =>
        PushCost(path + [name], entries, below);
        assert Walk(s).stack == [Frame(path + [name], entries)] + below && Walk(s).manager == Walking;
        assert NodeCost(rest[0]) == 2 + NodesCost(entries);
      case File(name, content) =>
        var f := Make(path + [name], FileEntry(content));
        assert Walk(s).manager == Adding(f) && Walk(s).stack == below;
        assert NodeCost(rest[0]) == 2 * Size(f) + 8;
      case Fifo(_) =>
      case Other(_) =>
    }
  }

  lemma AddCost(s: State, f: Make, wake: nat)
    requires s.manager == Adding(f) && s.stack != []
    ensures StepsLeft(Add(s, f, wake)) < StepsLeft(s)
  {
    if !s.done && |s.buffer| < s.size {
      TotalSizeConcat(s.buffer, [f]);
      AddedSize(f);
      WakeOneCost(s.workers, wake);
    }
  }

  lemma AddedSize(f: Make)
    ensures TotalSize([f]) == Size(f)
  {
    assert [f][1..] == [];
  }

  lemma WakeOneCost(workers: seq<Worker>, wake: nat)
    ensures |WakeOne(workers, wake)| == |workers|
    ensures Sum(WakeOne(workers, wake), WorkerCost) <= Sum(workers, WorkerCost) + 1
  {
    if wake < |workers| {
      SumUpdate(workers, wake, Woken(workers[wake]), WorkerCost);
    }
  }

  lemma EndCost(s: State, wake: nat)
    requires s.manager.Finishing? || s.manager.ManagerWaits?
    ensures StepsLeft(Manages(s, wake)) < StepsLeft(s)
  {
    WakeAllCost(s.workers, |s.workers|);
  }

  lemma ManageCost(s: State, wake: nat)
    requires Enabled(s, Manage(wake))
    ensures StepsLeft(Manages(s, wake)) < StepsLeft(s)
  {
    if s.manager.Walking? {
      WalkFrame(s);
      WalkCost(s);
    } else if s.manager.Adding? {
      AddCost(s, s.manager.f, wake);
    } else {
      EndCost(s, wake);
    }
  }

  lemma FetchCost(s: State, w: nat)
    requires w < |s.workers| && s.workers[w].Fetching?
    ensures StepsLeft(Fetch(s, w)) < StepsLeft(s)
  {
    SumUpdate(s.workers, w, Fetch(s, w).workers[w], WorkerCost);
  }

  lemma OtherWorkCost(s: State, w: nat, n: nat)
    requires Enabled(s, Work(w, n)) && !s.workers[w].Fetching?
    ensures WorkerCost(Works(s, w, n).workers[w]) < WorkerCost(s.workers[w])
  {
    match s.workers[w]
    case Copying(f, off) =>
      if off < Size(f) {
      }
    case Tallying(_, _, _) =>
    case Counting =>
    case WorkerWaits =>
  }

  lemma WorkCost(s: State, w: nat, n: nat)
    requires Enabled(s, Work(w, n))
    ensures StepsLeft(Works(s, w, n)) < StepsLeft(s)
  {
    if s.workers[w].Fetching? {
      FetchCost(s, w);
    } else {
      var t := Works(s, w, n);
      OtherWorkCost(s, w, n);
      OtherWorkFrame(s, w, n);
      SumUpdate(s.workers, w, t.workers[w], WorkerCost);
    }
  }

  lemma SpuriousCost(s: State, a: Action)
    requires Enabled(s, a) && IsSpurious(a)
    ensures StepsLeft(Do(s, a)) <= StepsLeft(s) + 1
  {
    if a.SpuriousWorker? {
      SumUpdate(s.workers, a.w, Fetching, WorkerCost);
    }
  }

  lemma StepCost(s: State, a: Action)
    requires Enabled(s, a)
    ensures 1 + StepsLeft(Do(s, a)) <= StepsLeft(s) + 2 * One(IsSpurious(a))
  {
    match a
    case Manage(wake) => ManageCost(s, wake);
    case Work(w, n) => WorkCost(s, w, n);
    case Stop => WakeAllCost(s.workers, |s.workers|);
    case SpuriousManager => SpuriousCost(s, a);
    case SpuriousWorker(_) => SpuriousCost(s, a);
  }

  /** Every run with finitely many spurious wakeups ends: each of them adds at most two steps to
      the `StepsLeft` of the start. */
  lemma {:induction false} EveryRunEnds(s: State, acts: seq<Action>)
    requires Exec(Step, s, acts).Some?
    ensures |acts| + StepsLeft(Exec(Step, s, acts).value) <= StepsLeft(s) + 2 * SpuriousIn(acts)
    decreases |acts|
  {
    if acts != [] {
      StepCost(s, acts[0]);
      hide StepsLeft;
      EveryRunEnds(Do(s, acts[0]), acts[1..]);
    }
  }

  // All of it together.

  lemma {:induction false} StoppedByStop(s: State, acts: seq<Action>)
    requires Exec(Step, s, acts).Some? && Stop !in acts
    ensures Exec(Step, s, acts).value.stopped == s.stopped
    decreases |acts|
  {
    if acts != [] {
      assert acts[0] in acts;
      NoStopStep(s, acts[0]);
      StoppedByStop(Do(s, acts[0]), acts[1..]);
    }
  }

  lemma NoStopStep(s: State, a: Action)
    requires a != Stop && Enabled(s, a)
    ensures Do(s, a).stopped == s.stopped
  {
    match a
    case Manage(wake) =>
      if s.manager.Walking? {
        WalkFrame(s);
      }
    case Work(w, n) =>
      if !s.workers[w].Fetching? {
        OtherWorkFrame(s, w, n);
      }
    case SpuriousManager =>
    case SpuriousWorker(_) =>
  }

  /** There are places for files and workers to take them, or no files. */
  predicate CanCopy(size: nat, workers: nat, tree: seq<Node>) {
    (size >= 1 && workers >= 1) || Files(Plan([], tree)) == []
  }

  /** Total correctness of the copy: however the threads are scheduled, and whatever wakes them,
      the program comes to an end after a bounded number of steps, two more for every wakeup
      without a signal, and it ends with a mirror of the source and exact counters. */
  lemma CopyEndsWithMirror(size: nat, workers: nat, tree: seq<Node>, fs0: map<Path, Entry>, acts: seq<Action>)
    requires WellFormed(tree) && CanCopy(size, workers, tree)
    requires Exec(Step, Init(size, workers, tree, fs0), acts).Some? && Stop !in acts
    ensures |acts| <= StepsLeft(Init(size, workers, tree, fs0)) + 2 * SpuriousIn(acts)
    ensures var s := Exec(Step, Init(size, workers, tree, fs0), acts).value; Stuck(s) ==> CopyDone(tree, fs0, s)
  {
    hide Stuck, CopyDone, StepsLeft, CanCopy, Init;
    var s0 := Init(size, workers, tree, fs0);
    var s := Exec(Step, s0, acts).value;
    EveryRunEnds(s0, acts);
    StoppedByStop(s0, acts);
    InitRuns(size, workers, tree, fs0);
    assert Reaches(Step, s0, s);
    if Stuck(s) {
      StuckIsDone(size, workers, tree, fs0, s);
    }
  }

  lemma InitRuns(size: nat, workers: nat, tree: seq<Node>, fs0: map<Path, Entry>)
    ensures !Init(size, workers, tree, fs0).stopped
  {
  }

  lemma StuckIsDone(size: nat, workers: nat, tree: seq<Node>, fs0: map<Path, Entry>, s: State)
    requires Reachable(size, workers, tree, fs0, s) && CanCopy(size, workers, tree) && Stuck(s) && !s.stopped
    ensures CopyDone(tree, fs0, s)
  {
    hide Reachable, Stuck, IsMirror, CountsAll, AllGone, BarrierOpen, Files;
    StuckOnlyWhenGone(size, workers, tree, fs0, s);
    if Files(Plan([], tree)) == [] {
      NoFilesNoWait(size, workers, tree, fs0, s);
    }
    CopyMirrorsSource(size, workers, tree, fs0, s);
  }

  lemma NoFilesNoWait(size: nat, workers: nat, tree: seq<Node>, fs0: map<Path, Entry>, s: State)
    requires Reachable(size, workers, tree, fs0, s) && Files(Plan([], tree)) == [] && !s.stopped
    ensures !s.manager.AwaitRoom?
  {
    hide Inv, Files;
    ReachableInv(size, workers, tree, fs0, s);
    NoFilesNothingLeft(Plan([], tree), fs0[[] := DirEntry], s);
  }

  /** All threads are gone, the destination is a mirror, and the counters say so. */
  ghost predicate CopyDone(tree: seq<Node>, fs0: map<Path, Entry>, s: State) {
    AllGone(s) && IsMirror(tree, fs0[[] := DirEntry], s.fs) && CountsAll(Plan([], tree), s)
  }

  // Exactly when the copy works.

  predicate Jobless(k: Worker) { Load(k) == None && !k.Counting? }

  /** With no worker, or no room in the buffer, no file is ever copied. */
  predicate NothingCopied(s: State) {
    && s.filesCopied == 0
    && (|s.workers| == 0
        || (s.size == 0 && s.buffer == [] && forall w :: 0 <= w < |s.workers| ==> Jobless(s.workers[w])))
  }

  lemma StepCopiesNothing(s: State, a: Action)
    requires NothingCopied(s) && Enabled(s, a)
    ensures NothingCopied(Do(s, a))
  {
    match a
    case Manage(wake) =>
      if s.manager.Walking? {
        WalkFrame(s);
      }
    case Work(w, n) =>
      assert Jobless(s.workers[w]);
      match s.workers[w] {
        case Fetching =>
        case WorkerWaits =>
      }
    case _ =>
  }

  lemma {:induction false} RunCopiesNothing(s: State, acts: seq<Action>)
    requires NothingCopied(s) && Exec(Step, s, acts).Some?
    ensures NothingCopied(Exec(Step, s, acts).value)
    decreases |acts|
  {
    if acts != [] {
      StepCopiesNothing(s, acts[0]);
      RunCopiesNothing(Do(s, acts[0]), acts[1..]);
    }
  }

  /** Stop or not: what was added is counted as copied when the barrier opens if and only if there
      is a worker, or nothing was added. */
  lemma AddedAreCountedIff(size: nat, workers: nat, tree: seq<Node>, fs0: map<Path, Entry>, s: State)
    requires Reachable(size, workers, tree, fs0, s) && BarrierOpen(s)
    ensures s.filesCopied == |s.added| <==> workers >= 1 || s.added == []
  {
    if workers >= 1 || s.added == [] {
      AddedFilesAreCopied(size, workers, tree, fs0, s);
    } else {
      var acts :| Exec(Step, Init(size, workers, tree, fs0), acts) == Some(s);
      RunCopiesNothing(Init(size, workers, tree, fs0), acts);
    }
  }

  /** Left to itself, the program runs until nothing can move. */
  lemma {:induction false} RunsDown(s: State) returns (acts: seq<Action>)
    ensures Exec(Step, s, acts).Some? && Stop !in acts && Stuck(Exec(Step, s, acts).value)
    decreases StepsLeft(s)
  {
    if Stuck(s) {
      acts := [];
    } else {
      var a := SomeStep(s);
      StepCost(s, a);
      hide StepsLeft, Stuck;
      var more := RunsDown(Do(s, a));
      ExecCons(Step, s, a, Do(s, a), more);
      acts := [a] + more;
    }
  }

  lemma SomeStep(s: State) returns (a: Action)
    requires !Stuck(s)
    ensures Enabled(s, a) && a != Stop && !IsSpurious(a)
  {
    hide Enabled;
    if wake: nat :| Enabled(s, Manage(wake)) {
      a := Manage(wake);
    } else {
      var w: nat, n: nat :| Enabled(s, Work(w, n));
      a := Work(w, n);
    }
  }

  /** The program does not look at its arguments.  For every tree it ends as it should, under every
      schedule without a stop, if and only if there is room in the buffer and a worker, or no file
      to copy. */
  lemma CopyEndsIff(size: nat, workers: nat, tree: seq<Node>, fs0: map<Path, Entry>)
    requires WellFormed(tree)
    ensures (forall acts :: Exec(Step, Init(size, workers, tree, fs0), acts).Some? && Stop !in acts ==>
               var s := Exec(Step, Init(size, workers, tree, fs0), acts).value;
               Stuck(s) ==> CopyDone(tree, fs0, s))
            <==> CanCopy(size, workers, tree)
  {
    var s0 := Init(size, workers, tree, fs0);
    if CanCopy(size, workers, tree) {
      forall acts | Exec(Step, s0, acts).Some? && Stop !in acts
        ensures var s := Exec(Step, s0, acts).value; Stuck(s) ==> CopyDone(tree, fs0, s)
      {
        CopyEndsWithMirror(size, workers, tree, fs0, acts);
      }
    } else {
      hide Stuck;
      var acts := RunsDown(s0);
      RunCopiesNothing(s0, acts);
      assert Exec(Step, s0, acts).value.filesCopied == 0;
    }
  }
}
