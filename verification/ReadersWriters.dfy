// The writer-preference readers/writers lock of MidtermProject/sync.c, run by any
// number of processes.  A step is one semaphore operation, or one update of a counter
// together with the test on it (both happen under the same mutex in the source).

module ReadersWriters {
  import opened Counting
  import opened Runs

  /** Where a process stands.  The comments give the line of sync.c that comes next. */
  datatype Pc =
    | Idle
      // reader_enter_region
    | AwaitReadTry        // 9
    | AwaitRmutex         // 15
    | CountIn             // 21-23
    | FirstAwaitRsc       // 24
    | PostRmutex          // 27
    | PostReadTry         // 33
    | Reading             // the caller's region
      // reader_exit_region
    | ExitAwaitRmutex     // 44
    | CountOut            // 50-52
    | LastPostRsc         // 53
    | ExitPostRmutex      // 56
      // writer_enter_region
    | AwaitWmutex         // 67
    | WriterIn            // 73-75
    | FirstAwaitReadTry   // 76
    | PostWmutex          // 79
    | AwaitRsc            // 85
    | Writing             // the caller's region
      // writer_exit_region
    | PostRsc             // 96
    | ExitAwaitWmutex     // 102
    | WriterOut           // 108-110
    | LastPostReadTry     // 111
    | ExitPostWmutex      // 114

  /** The shared part of a `struct safe_file`. */
  datatype Fields = Fields(readTry: nat, rmutex: nat, wmutex: nat, rsc: nat, readerCount: int, writerCount: int)

  /** A safe file and the processes that use it. */
  datatype State = State(file: Fields, pc: seq<Pc>)

  datatype Action =
    | StartRead(p: nat)   // p calls reader_enter_region
    | StartWrite(p: nat)  // p calls writer_enter_region
    | Advance(p: nat)     // p takes its next step in the function it is in

  /** `init_sfile`, lines 160-182. */
  function Init(n: nat): State {
    State(Fields(1, 1, 1, 1, 0, 0), seq(n, _ => Idle))
  }

  /** Whether a process at `c` gets past its next operation; `sem_wait` blocks on 0. */
  predicate Ready(f: Fields, c: Pc) {
    match c
    case Idle => false
    case AwaitReadTry | FirstAwaitReadTry => f.readTry > 0
    case AwaitRmutex | ExitAwaitRmutex => f.rmutex > 0
    case AwaitWmutex | ExitAwaitWmutex => f.wmutex > 0
    case FirstAwaitRsc | AwaitRsc => f.rsc > 0
    case _ => true
  }

  /** The shared fields after a process at `c` has taken its step. */
  function Effect(f: Fields, c: Pc): Fields
    requires Ready(f, c)
  {
    match c
    case AwaitReadTry | FirstAwaitReadTry => f.(readTry := f.readTry - 1)
    case AwaitRmutex | ExitAwaitRmutex => f.(rmutex := f.rmutex - 1)
    case AwaitWmutex | ExitAwaitWmutex => f.(wmutex := f.wmutex - 1)
    case FirstAwaitRsc | AwaitRsc => f.(rsc := f.rsc - 1)
    case CountIn => f.(readerCount := f.readerCount + 1)
    case CountOut => f.(readerCount := f.readerCount - 1)
    case WriterIn => f.(writerCount := f.writerCount + 1)
    case WriterOut => f.(writerCount := f.writerCount - 1)
    case PostRmutex | ExitPostRmutex => f.(rmutex := f.rmutex + 1)
    case PostReadTry | LastPostReadTry => f.(readTry := f.readTry + 1)
    case PostWmutex | ExitPostWmutex => f.(wmutex := f.wmutex + 1)
    case LastPostRsc | PostRsc => f.(rsc := f.rsc + 1)
    case Reading | Writing => f
  }

  /** Where a process at `c` goes; `f` holds the fields before its step. */
  function Goto(f: Fields, c: Pc): Pc
    requires Ready(f, c)
  {
    match c
    case AwaitReadTry => AwaitRmutex
    case AwaitRmutex => CountIn
    case CountIn => if f.readerCount + 1 == 1 then FirstAwaitRsc else PostRmutex
    case FirstAwaitRsc => PostRmutex
    case PostRmutex => PostReadTry
    case PostReadTry => Reading
    case Reading => ExitAwaitRmutex
    case ExitAwaitRmutex => CountOut
    case CountOut => if f.readerCount - 1 == 0 then LastPostRsc else ExitPostRmutex
    case LastPostRsc => ExitPostRmutex
    case ExitPostRmutex => Idle
    case AwaitWmutex => WriterIn
    case WriterIn => if f.writerCount + 1 == 1 then FirstAwaitReadTry else PostWmutex
    case FirstAwaitReadTry => PostWmutex
    case PostWmutex => AwaitRsc
    case AwaitRsc => Writing
    case Writing => PostRsc
    case PostRsc => ExitAwaitWmutex
    case ExitAwaitWmutex => WriterOut
    case WriterOut => if f.writerCount - 1 == 0 then LastPostReadTry else ExitPostWmutex
    case LastPostReadTry => ExitPostWmutex
    case ExitPostWmutex => Idle
  }

  predicate Enabled(s: State, a: Action) {
    && a.p < |s.pc|
    && if a.Advance? then Ready(s.file, s.pc[a.p]) else s.pc[a.p] == Idle
  }

  function Do(s: State, a: Action): State
    requires Enabled(s, a)
  {
    match a
    case StartRead(p) => s.(pc := s.pc[p := AwaitReadTry])
    case StartWrite(p) => s.(pc := s.pc[p := AwaitWmutex])
    case Advance(p) => State(Effect(s.file, s.pc[p]), s.pc[p := Goto(s.file, s.pc[p])])
  }

  function Step(s: State, a: Action): Option<State> {
    if Enabled(s, a) then Some(Do(s, a)) else None
  }

  // ---------------------------------------------------------------- token accounting

  // The processes are classed by what they hold.  The four processes that wait for, or
  // hand on, a semaphore on behalf of their whole group are classed apart.

  predicate HasRmutex(c: Pc) {
    c.CountIn? || c.PostRmutex? || c.CountOut? || c.ExitPostRmutex?
  }

  predicate HasWmutex(c: Pc) {
    c.WriterIn? || c.PostWmutex? || c.WriterOut? || c.ExitPostWmutex?
  }

  /** A reader between its increment and its decrement. */
  predicate CountedReader(c: Pc) {
    c.PostRmutex? || c.PostReadTry? || c.Reading? || c.ExitAwaitRmutex? || c.CountOut?
  }

  predicate CountedWriter(c: Pc) {
    c.PostWmutex? || c.AwaitRsc? || c.Writing? || c.PostRsc? || c.ExitAwaitWmutex? || c.WriterOut?
  }

  /** A reader that holds `read_try` itself. */
  predicate AtGate(c: Pc) {
    c.AwaitRmutex? || c.CountIn? || c.PostRmutex? || c.PostReadTry?
  }

  /** A writer that holds `rsc` itself. */
  predicate HasRsc(c: Pc) {
    c.Writing? || c.PostRsc?
  }

  predicate IsFirstAwaitRsc(c: Pc) { c.FirstAwaitRsc? }
  predicate IsLastPostRsc(c: Pc) { c.LastPostRsc? }
  predicate IsFirstAwaitReadTry(c: Pc) { c.FirstAwaitReadTry? }
  predicate IsLastPostReadTry(c: Pc) { c.LastPostReadTry? }

  /** How many processes of each class there are. */
  datatype Tally = Tally(
    rmutexed: nat, wmutexed: nat, countedReaders: nat, countedWriters: nat, atGate: nat, rscHeld: nat,
    firstReader: nat, lastReader: nat, firstWriter: nat, lastWriter: nat)

  function TallyOf(pc: seq<Pc>): Tally {
    Tally(
      Count(pc, HasRmutex), Count(pc, HasWmutex), Count(pc, CountedReader), Count(pc, CountedWriter),
      Count(pc, AtGate), Count(pc, HasRsc),
      Count(pc, IsFirstAwaitRsc), Count(pc, IsLastPostRsc),
      Count(pc, IsFirstAwaitReadTry), Count(pc, IsLastPostReadTry))
  }

  /** The readers as a group hold `rsc`, handed from the first one in to the last one out. */
  predicate ReadersHoldRsc(f: Fields, k: Tally) {
    (f.readerCount > 0 && k.firstReader == 0) || k.lastReader > 0
  }

  /** The writers as a group hold `read_try`. */
  predicate WritersHoldGate(f: Fields, k: Tally) {
    (f.writerCount > 0 && k.firstWriter == 0) || k.lastWriter > 0
  }

  /** Every semaphore's value and its holders add up to exactly one token, and each
      counter is the number of processes between its increment and its decrement. */
  predicate Balanced(f: Fields, k: Tally) {
    && f.rmutex + k.rmutexed + k.firstReader + k.lastReader == 1
    && f.wmutex + k.wmutexed + k.firstWriter + k.lastWriter == 1
    && f.readTry + k.atGate + k.firstReader + One(WritersHoldGate(f, k)) == 1
    && f.rsc + k.rscHeld + One(ReadersHoldRsc(f, k)) == 1
    && f.readerCount == k.countedReaders + k.firstReader
    && f.writerCount == k.countedWriters + k.firstWriter
    && (k.firstReader > 0 ==> f.readerCount == 1)
    && (k.lastReader > 0 ==> f.readerCount == 0)
    && (k.firstWriter > 0 ==> f.writerCount == 1)
    && (k.lastWriter > 0 ==> f.writerCount == 0)
  }

  predicate Inv(s: State) {
    Balanced(s.file, TallyOf(s.pc))
  }

  /** The tally after one process has moved from `c` to `d`. */
  predicate Moved(k: Tally, l: Tally, c: Pc, d: Pc) {
    && Shift(k.rmutexed, l.rmutexed, HasRmutex(c), HasRmutex(d))
    && Shift(k.wmutexed, l.wmutexed, HasWmutex(c), HasWmutex(d))
    && Shift(k.countedReaders, l.countedReaders, CountedReader(c), CountedReader(d))
    && Shift(k.countedWriters, l.countedWriters, CountedWriter(c), CountedWriter(d))
    && Shift(k.atGate, l.atGate, AtGate(c), AtGate(d))
    && Shift(k.rscHeld, l.rscHeld, HasRsc(c), HasRsc(d))
    && Shift(k.firstReader, l.firstReader, IsFirstAwaitRsc(c), IsFirstAwaitRsc(d))
    && Shift(k.lastReader, l.lastReader, IsLastPostRsc(c), IsLastPostRsc(d))
    && Shift(k.firstWriter, l.firstWriter, IsFirstAwaitReadTry(c), IsFirstAwaitReadTry(d))
    && Shift(k.lastWriter, l.lastWriter, IsLastPostReadTry(c), IsLastPostReadTry(d))
  }

  lemma MoveTally(pc: seq<Pc>, p: nat, d: Pc)
    requires p < |pc|
    ensures Moved(TallyOf(pc), TallyOf(pc[p := d]), pc[p], d)
  {
    CountUpdate(pc, p, d, HasRmutex);
    CountUpdate(pc, p, d, HasWmutex);
    CountUpdate(pc, p, d, CountedReader);
    CountUpdate(pc, p, d, CountedWriter);
    CountUpdate(pc, p, d, AtGate);
    CountUpdate(pc, p, d, HasRsc);
    CountUpdate(pc, p, d, IsFirstAwaitRsc);
    CountUpdate(pc, p, d, IsLastPostRsc);
    CountUpdate(pc, p, d, IsFirstAwaitReadTry);
    CountUpdate(pc, p, d, IsLastPostReadTry);
  }

  lemma InitInv(n: nat)
    ensures Inv(Init(n))
  {
    var pc := Init(n).pc;
    CountZero(pc, HasRmutex);
    CountZero(pc, HasWmutex);
    CountZero(pc, CountedReader);
    CountZero(pc, CountedWriter);
    CountZero(pc, AtGate);
    CountZero(pc, HasRsc);
    CountZero(pc, IsFirstAwaitRsc);
    CountZero(pc, IsLastPostRsc);
    CountZero(pc, IsFirstAwaitReadTry);
    CountZero(pc, IsLastPostReadTry);
  }

  predicate InReaderEnter(c: Pc) {
    c.AwaitReadTry? || c.AwaitRmutex? || c.CountIn? || c.FirstAwaitRsc? || c.PostRmutex? || c.PostReadTry?
  }

  predicate InReaderExit(c: Pc) {
    c.ExitAwaitRmutex? || c.CountOut? || c.LastPostRsc? || c.ExitPostRmutex?
  }

  predicate InWriterEnter(c: Pc) {
    c.AwaitWmutex? || c.WriterIn? || c.FirstAwaitReadTry? || c.PostWmutex? || c.AwaitRsc?
  }

  predicate InWriterExit(c: Pc) {
    c.PostRsc? || c.ExitAwaitWmutex? || c.WriterOut? || c.LastPostReadTry? || c.ExitPostWmutex?
  }

  lemma ReaderEnterKeepsBalance(f: Fields, k: Tally, l: Tally, c: Pc)
    requires Balanced(f, k) && InReaderEnter(c) && Ready(f, c) && Moved(k, l, c, Goto(f, c))
    ensures Balanced(Effect(f, c), l)
  {
    match c {
      case AwaitReadTry =>
      case AwaitRmutex =>
      case CountIn =>
      case FirstAwaitRsc =>
      case PostRmutex =>
      case PostReadTry =>
    }
  }

  lemma ReaderExitKeepsBalance(f: Fields, k: Tally, l: Tally, c: Pc)
    requires Balanced(f, k) && InReaderExit(c) && Ready(f, c) && Moved(k, l, c, Goto(f, c))
    ensures Balanced(Effect(f, c), l)
  {
    match c {
      case ExitAwaitRmutex =>
      case CountOut =>
      case LastPostRsc =>
      case ExitPostRmutex =>
    }
  }

  lemma WriterEnterKeepsBalance(f: Fields, k: Tally, l: Tally, c: Pc)
    requires Balanced(f, k) && InWriterEnter(c) && Ready(f, c) && Moved(k, l, c, Goto(f, c))
    ensures Balanced(Effect(f, c), l)
  {
    match c {
      case AwaitWmutex =>
      case WriterIn =>
      case FirstAwaitReadTry =>
      case PostWmutex =>
      case AwaitRsc =>
    }
  }

  lemma WriterExitKeepsBalance(f: Fields, k: Tally, l: Tally, c: Pc)
    requires Balanced(f, k) && InWriterExit(c) && Ready(f, c) && Moved(k, l, c, Goto(f, c))
    ensures Balanced(Effect(f, c), l)
  {
    match c {
      case PostRsc =>
      case ExitAwaitWmutex =>
      case WriterOut =>
      case LastPostReadTry =>
      case ExitPostWmutex =>
    }
  }

  /** The balance survives every step of every process, whoever the others are. */
  lemma AdvanceKeepsBalance(f: Fields, k: Tally, l: Tally, c: Pc)
    requires Balanced(f, k) && Ready(f, c) && Moved(k, l, c, Goto(f, c))
    ensures Balanced(Effect(f, c), l)
  {
    if InReaderEnter(c) {
      ReaderEnterKeepsBalance(f, k, l, c);
    } else if InReaderExit(c) {
      ReaderExitKeepsBalance(f, k, l, c);
    } else if InWriterEnter(c) {
      WriterEnterKeepsBalance(f, k, l, c);
    } else if InWriterExit(c) {
      WriterExitKeepsBalance(f, k, l, c);
    }
  }

  /** Calling an enter function changes no field and no holder. */
  lemma StartKeepsBalance(f: Fields, k: Tally, l: Tally, d: Pc)
    requires Balanced(f, k) && (d.AwaitReadTry? || d.AwaitWmutex?) && Moved(k, l, Idle, d)
    ensures Balanced(f, l)
  {
  }

  lemma StepKeepsInv(s: State, a: Action)
    requires Inv(s) && Enabled(s, a)
    ensures Inv(Do(s, a))
  {
    var t := Do(s, a);
    MoveTally(s.pc, a.p, t.pc[a.p]);
    if a.Advance? {
      AdvanceKeepsBalance(s.file, TallyOf(s.pc), TallyOf(t.pc), s.pc[a.p]);
    } else {
      StartKeepsBalance(s.file, TallyOf(s.pc), TallyOf(t.pc), t.pc[a.p]);
    }
  }

  // ------------------------------------------------------------ what every run guarantees

  /** Some run of some number of processes leads to `s`. */
  ghost predicate Reachable(s: State) {
    exists n: nat :: Reaches(Step, Init(n), s)
  }

  lemma ReachableInv(s: State)
    requires Reachable(s)
    ensures Inv(s)
  {
    var n: nat :| Reaches(Step, Init(n), s);
    InitInv(n);
    forall t, a | Inv(t) && Step(t, a).Some?
      ensures Inv(Step(t, a).value)
    {
      StepKeepsInv(t, a);
    }
    ReachesKeeps(Step, Inv, Init(n), s);
  }

  lemma StepReachable(s: State, a: Action)
    requires Reachable(s) && Enabled(s, a)
    ensures Reachable(Do(s, a))
  {
    var n: nat :| Reaches(Step, Init(n), s);
    ReachesStep(Step, Init(n), s, a);
  }

  lemma RunReachable(s: State, acts: seq<Action>)
    requires Reachable(s) && Exec(Step, s, acts).Some?
    ensures Reachable(Exec(Step, s, acts).value)
  {
    var n: nat :| Reaches(Step, Init(n), s);
    ReachesRun(Step, Init(n), s, acts);
  }

  /** A process that writes excludes every other reader and writer. */
  lemma WriterExcludesAll(s: State, p: nat, q: nat)
    requires Reachable(s) && p < |s.pc| && q < |s.pc| && p != q && s.pc[p] == Writing
    ensures s.pc[q] != Writing && s.pc[q] != Reading
  {
    ReachableInv(s);
    CountPositive(s.pc, p, HasRsc);
    if s.pc[q] == Writing {
      CountTwo(s.pc, p, q, HasRsc);
    } else if s.pc[q] == Reading {
      CountPositive(s.pc, q, CountedReader);
    }
  }

  /** No semaphore is ever posted above 1, and each counter is exact. */
  lemma SemaphoresStayBinary(s: State)
    requires Reachable(s)
    ensures s.file.readTry <= 1 && s.file.rmutex <= 1 && s.file.wmutex <= 1 && s.file.rsc <= 1
    ensures s.file.readerCount == Count(s.pc, CountedReader) + Count(s.pc, IsFirstAwaitRsc)
    ensures s.file.writerCount == Count(s.pc, CountedWriter) + Count(s.pc, IsFirstAwaitReadTry)
  {
    ReachableInv(s);
  }

  // -------------------------------------------------------- deadlock freedom and drainage

  ghost predicate Stuck(s: State) {
    forall p: nat :: p < |s.pc| ==> !Enabled(s, Advance(p))
  }

  ghost predicate AllIdle(s: State) {
    forall p: nat :: p < |s.pc| ==> s.pc[p] == Idle
  }

  /** A process in a class that never blocks rules out being stuck. */
  lemma StuckHasNo(s: State, k: Pc -> bool)
    requires Stuck(s) && forall c :: k(c) ==> Ready(s.file, c)
    ensures Count(s.pc, k) == 0
  {
    forall i | 0 <= i < |s.pc|
      ensures !k(s.pc[i])
    {
      assert !Enabled(s, Advance(i));
    }
    CountZero(s.pc, k);
  }

  /** With no first reader waiting, a stuck system has no reader past the gate. */
  lemma StuckReaders(s: State)
    requires Inv(s) && Stuck(s)
    ensures s.file.rmutex == 1 && s.file.rsc == 1 && s.file.readerCount == 0
    ensures Count(s.pc, AtGate) == 0
  {
    StuckHasNo(s, HasRmutex);
    StuckHasNo(s, HasRsc);
    StuckHasNo(s, IsLastPostRsc);
    if Count(s.pc, IsFirstAwaitRsc) > 0 {
      assert s.file.rsc == 1;
      StuckHasNo(s, IsFirstAwaitRsc);
    }
    StuckHasNo(s, CountedReader);
    StuckHasNo(s, AtGate);
  }

  lemma StuckWriters(s: State)
    requires Inv(s) && Stuck(s)
    ensures s.file.wmutex == 1 && s.file.readTry == 1 && s.file.writerCount == 0
  {
    StuckReaders(s);
    StuckHasNo(s, HasWmutex);
    StuckHasNo(s, IsLastPostReadTry);
    if Count(s.pc, IsFirstAwaitReadTry) > 0 {
      assert s.file.readTry == 1;
      StuckHasNo(s, IsFirstAwaitReadTry);
    }
    StuckHasNo(s, CountedWriter);
  }

  /** If no process can take a step then none is inside any of the four functions, and the
      file is as `init_sfile` left it: there is no deadlock. */
  lemma StuckOnlyWhenIdle(s: State)
    requires Reachable(s) && Stuck(s)
    ensures AllIdle(s) && s.file == Fields(1, 1, 1, 1, 0, 0)
  {
    ReachableInv(s);
    StuckReaders(s);
    StuckWriters(s);
    forall p: nat | p < |s.pc|
      ensures s.pc[p] == Idle
    {
      assert !Enabled(s, Advance(p));
    }
  }

  /** At most how many steps a process at `c` takes before it is idle again. */
  function Rank(c: Pc): nat {
    match c
    case Idle => 0
    case ExitPostRmutex | ExitPostWmutex => 1
    case LastPostRsc | LastPostReadTry => 2
    case CountOut | WriterOut => 3
    case ExitAwaitRmutex | ExitAwaitWmutex => 4
    case Reading | PostRsc => 5
    case PostReadTry | Writing => 6
    case PostRmutex | AwaitRsc => 7
    case FirstAwaitRsc | PostWmutex => 8
    case CountIn | FirstAwaitReadTry => 9
    case AwaitRmutex | WriterIn => 10
    case AwaitReadTry | AwaitWmutex => 11
  }

  function Work(s: State): nat {
    Sum(s.pc, Rank)
  }

  predicate NoNewRequest(a: Action) {
    a.Advance?
  }

  lemma AdvanceReducesWork(s: State, p: nat)
    requires Enabled(s, Advance(p))
    ensures Work(Do(s, Advance(p))) < Work(s)
  {
    SumUpdate(s.pc, p, Goto(s.file, s.pc[p]), Rank);
  }

  /** When requests stop, every way of scheduling the processes as long as any of them can
      move is bounded, and ends with all of them idle and the file in its initial state. */
  lemma {:induction false} EveryRunDrains(s: State, acts: seq<Action>)
    requires Reachable(s) && Exec(Step, s, acts).Some? && forall a :: a in acts ==> NoNewRequest(a)
    ensures |acts| <= Work(s)
    ensures var t := Exec(Step, s, acts).value;
            && (Stuck(t) <==> AllIdle(t))
            && (Stuck(t) ==> t.file == Fields(1, 1, 1, 1, 0, 0))
  {
    forall t, a | NoNewRequest(a) && Step(t, a).Some?
      ensures Work(Step(t, a).value) < Work(t)
    {
      AdvanceReducesWork(t, a.p);
    }
    ExecBounded(Step, _ => true, NoNewRequest, Work, s, acts);
    RunReachable(s, acts);
    if Stuck(Exec(Step, s, acts).value) {
      StuckOnlyWhenIdle(Exec(Step, s, acts).value);
    }
  }

  // ------------------------------------------------------------------ entering and leaving

  /** A process comes out of an enter function into its region and nowhere else, goes into an exit
      function from its region only, and is idle when it comes out of that. */
  lemma RegionBoundaries(s: State, p: nat)
    requires Enabled(s, Advance(p))
    ensures var c, d := s.pc[p], Do(s, Advance(p)).pc[p];
            && (InReaderEnter(c) && !InReaderEnter(d) ==> d == Reading)
            && (InWriterEnter(c) && !InWriterEnter(d) ==> d == Writing)
            && (InReaderExit(d) && !InReaderExit(c) ==> c == Reading)
            && (InWriterExit(d) && !InWriterExit(c) ==> c == Writing)
            && (InReaderExit(c) && !InReaderExit(d) ==> d == Idle)
            && (InWriterExit(c) && !InWriterExit(d) ==> d == Idle)
            && (c == Reading ==> InReaderExit(d)) && (c == Writing ==> InWriterExit(d))
            && (d == Reading ==> InReaderEnter(c)) && (d == Writing ==> InWriterEnter(c))
  {
  }

  /** What the source has a process do: wait on or post a semaphore, count itself in or out and
      look whether it is the first or the last, or work in its region. */
  datatype Op = Wait(sem: Sem) | Post(sem: Sem) | CountUp(first: Sem) | CountDown(last: Sem) | Region
  datatype Sem = ReadTry | Rmutex | Wmutex | Rsc

  /** The statements of reader_enter_region, the caller and reader_exit_region, in their order. */
  function ReaderOp(i: nat): Op
    requires i < 9
  {
    match i
    case 0 => Wait(ReadTry)
    case 1 => Wait(Rmutex)
    case 2 => CountUp(Rsc)
    case 3 => Post(Rmutex)
    case 4 => Post(ReadTry)
    case 5 => Region
    case 6 => Wait(Rmutex)
    case 7 => CountDown(Rsc)
    case 8 => Post(Rmutex)
  }

  /** The same for a writer. */
  function WriterOp(i: nat): Op
    requires i < 9
  {
    match i
    case 0 => Wait(Wmutex)
    case 1 => CountUp(ReadTry)
    case 2 => Post(Wmutex)
    case 3 => Wait(Rsc)
    case 4 => Region
    case 5 => Post(Rsc)
    case 6 => Wait(Wmutex)
    case 7 => CountDown(ReadTry)
    case 8 => Post(Wmutex)
  }

  function OpAt(readers: bool, i: nat): Op
    requires i < 9
  {
    if readers then ReaderOp(i) else WriterOp(i)
  }

  /** Which of these statements a process has reached; the first one in and the last one out have one
      more operation to do for their group. */
  datatype At = Out | ReaderAt(i: nat) | WriterAt(i: nat) | ReaderFor(i: nat) | WriterFor(i: nat)

  function AtOf(c: Pc): At {
    match c
    case Idle => Out
    case AwaitReadTry => ReaderAt(0)
    case AwaitRmutex => ReaderAt(1)
    case CountIn => ReaderAt(2)
    case FirstAwaitRsc => ReaderFor(2)
    case PostRmutex => ReaderAt(3)
    case PostReadTry => ReaderAt(4)
    case Reading => ReaderAt(5)
    case ExitAwaitRmutex => ReaderAt(6)
    case CountOut => ReaderAt(7)
    case LastPostRsc => ReaderFor(7)
    case ExitPostRmutex => ReaderAt(8)
    case AwaitWmutex => WriterAt(0)
    case WriterIn => WriterAt(1)
    case FirstAwaitReadTry => WriterFor(1)
    case PostWmutex => WriterAt(2)
    case AwaitRsc => WriterAt(3)
    case Writing => WriterAt(4)
    case PostRsc => WriterAt(5)
    case ExitAwaitWmutex => WriterAt(6)
    case WriterOut => WriterAt(7)
    case LastPostReadTry => WriterFor(7)
    case ExitPostWmutex => WriterAt(8)
  }

  function Value(f: Fields, sem: Sem): nat {
    match sem
    case ReadTry => f.readTry
    case Rmutex => f.rmutex
    case Wmutex => f.wmutex
    case Rsc => f.rsc
  }

  /** All semaphores but `sem` are the same, and both counters. */
  predicate OnlySem(f: Fields, g: Fields, sem: Sem) {
    && (sem != ReadTry ==> g.readTry == f.readTry) && (sem != Rmutex ==> g.rmutex == f.rmutex)
    && (sem != Wmutex ==> g.wmutex == f.wmutex) && (sem != Rsc ==> g.rsc == f.rsc)
    && g.readerCount == f.readerCount && g.writerCount == f.writerCount
  }

  /** A wait takes one from its semaphore, and needs it; a post gives one. */
  predicate Waited(f: Fields, g: Fields, sem: Sem) {
    Value(f, sem) > 0 && Value(g, sem) == Value(f, sem) - 1 && OnlySem(f, g, sem)
  }

  predicate Posted(f: Fields, g: Fields, sem: Sem) {
    Value(g, sem) == Value(f, sem) + 1 && OnlySem(f, g, sem)
  }

  /** The counter that the process counts itself in; `readers` tells which. */
  function Counter(f: Fields, readers: bool): int {
    if readers then f.readerCount else f.writerCount
  }

  predicate Counted(f: Fields, g: Fields, readers: bool, change: int) {
    && Counter(g, readers) == Counter(f, readers) + change && Counter(g, !readers) == Counter(f, !readers)
    && g.readTry == f.readTry && g.rmutex == f.rmutex && g.wmutex == f.wmutex && g.rsc == f.rsc
  }

  function PlaceOf(readers: bool, i: nat): At {
    if i == 9 then Out else if readers then ReaderAt(i) else WriterAt(i)
  }

  /** What the statement at place `i` of the source does to the fields, and where it leads. */
  predicate DoesOp(f: Fields, g: Fields, readers: bool, i: nat, to: At)
    requires i < 9
  {
    match OpAt(readers, i)
    case Wait(sem) => Waited(f, g, sem) && to == PlaceOf(readers, i + 1)
    case Post(sem) => Posted(f, g, sem) && to == PlaceOf(readers, i + 1)
    case Region => g == f && to == PlaceOf(readers, i + 1)
    case CountUp(_) =>
      && Counted(f, g, readers, 1)
      && to == if Counter(g, readers) == 1 then ForGroup(readers, i) else PlaceOf(readers, i + 1)
    case CountDown(_) =>
      && Counted(f, g, readers, -1)
      && to == if Counter(g, readers) == 0 then ForGroup(readers, i) else PlaceOf(readers, i + 1)
  }

  function ForGroup(readers: bool, i: nat): At {
    if readers then ReaderFor(i) else WriterFor(i)
  }

  /** What the first one in or the last one out does for its group. */
  predicate DoesForGroup(f: Fields, g: Fields, readers: bool, i: nat, to: At)
    requires i < 9
  {
    match OpAt(readers, i)
    case CountUp(sem) => Waited(f, g, sem) && to == PlaceOf(readers, i + 1)
    case CountDown(sem) => Posted(f, g, sem) && to == PlaceOf(readers, i + 1)
    case _ => false
  }

  /** The step from `c` to `d` is the statement that the source has there. */
  predicate IsNextOp(f: Fields, g: Fields, c: Pc, d: Pc) {
    match AtOf(c)
    case Out => false
    case ReaderAt(i) => i < 9 && DoesOp(f, g, true, i, AtOf(d))
    case WriterAt(i) => i < 9 && DoesOp(f, g, false, i, AtOf(d))
    case ReaderFor(i) => i < 9 && DoesForGroup(f, g, true, i, AtOf(d))
    case WriterFor(i) => i < 9 && DoesForGroup(f, g, false, i, AtOf(d))
  }

  /** The statement at `c` waits on a semaphore of value 0. */
  predicate IsBlocked(f: Fields, c: Pc) {
    match AtOf(c)
    case Out => false
    case ReaderAt(i) => i < 9 && ReaderOp(i).Wait? && Value(f, ReaderOp(i).sem) == 0
    case WriterAt(i) => i < 9 && WriterOp(i).Wait? && Value(f, WriterOp(i).sem) == 0
    case ReaderFor(i) => i < 9 && ReaderOp(i).CountUp? && Value(f, ReaderOp(i).first) == 0
    case WriterFor(i) => i < 9 && WriterOp(i).CountUp? && Value(f, WriterOp(i).first) == 0
  }

  lemma ReaderEnterFollows(f: Fields, c: Pc)
    requires Ready(f, c) && InReaderEnter(c)
    ensures IsNextOp(f, Effect(f, c), c, Goto(f, c))
  {
    match c
    case AwaitReadTry =>
    case AwaitRmutex =>
    case CountIn =>
    case FirstAwaitRsc =>
    case PostRmutex =>
    case PostReadTry =>
  }

  lemma ReaderExitFollows(f: Fields, c: Pc)
    requires Ready(f, c) && (c.Reading? || InReaderExit(c))
    ensures IsNextOp(f, Effect(f, c), c, Goto(f, c))
  {
    match c
    case Reading =>
    case ExitAwaitRmutex =>
    case CountOut =>
    case LastPostRsc =>
    case ExitPostRmutex =>
  }

  lemma WriterEnterFollows(f: Fields, c: Pc)
    requires Ready(f, c) && InWriterEnter(c)
    ensures IsNextOp(f, Effect(f, c), c, Goto(f, c))
  {
    match c
    case AwaitWmutex =>
    case WriterIn =>
    case FirstAwaitReadTry =>
    case PostWmutex =>
    case AwaitRsc =>
  }

  lemma WriterExitFollows(f: Fields, c: Pc)
    requires Ready(f, c) && (c.Writing? || InWriterExit(c))
    ensures IsNextOp(f, Effect(f, c), c, Goto(f, c))
  {
    match c
    case Writing =>
    case PostRsc =>
    case ExitAwaitWmutex =>
    case WriterOut =>
    case LastPostReadTry =>
    case ExitPostWmutex =>
  }

  lemma ReadyUnlessBlocked(f: Fields, c: Pc)
    ensures Ready(f, c) <==> c != Idle && !IsBlocked(f, c)
  {
    match c
    case AwaitReadTry =>
    case AwaitRmutex =>
    case FirstAwaitRsc =>
    case ExitAwaitRmutex =>
    case AwaitWmutex =>
    case FirstAwaitReadTry =>
    case AwaitRsc =>
    case ExitAwaitWmutex =>
    case _ =>
  }

  /** Every step of a process is the statement of its function that comes next, in the order of the
      source, with its own effect on the semaphores and counters; and a process is blocked exactly
      where that statement waits on a semaphore of value 0. */
  lemma FollowsTheSource(s: State, p: nat)
    requires p < |s.pc| && s.pc[p] != Idle
    ensures Enabled(s, Advance(p)) <==> !IsBlocked(s.file, s.pc[p])
    ensures Enabled(s, Advance(p)) ==>
              var t := Do(s, Advance(p)); t.pc == s.pc[p := t.pc[p]] && IsNextOp(s.file, t.file, s.pc[p], t.pc[p])
  {
    hide IsNextOp, IsBlocked, Effect, Goto;
    var c := s.pc[p];
    ReadyUnlessBlocked(s.file, c);
    if Ready(s.file, c) {
      if InReaderEnter(c) {
        ReaderEnterFollows(s.file, c);
      } else if InWriterEnter(c) {
        WriterEnterFollows(s.file, c);
      } else if c.Reading? || InReaderExit(c) {
        ReaderExitFollows(s.file, c);
      } else {
        WriterExitFollows(s.file, c);
      }
    }
  }

  /** Left to themselves, the processes all become idle. */
  lemma {:induction false} AllLeave(s: State) returns (acts: seq<Action>)
    requires Reachable(s)
    ensures Exec(Step, s, acts).Some? && AllIdle(Exec(Step, s, acts).value)
    ensures var t := Exec(Step, s, acts).value; |t.pc| == |s.pc| && t.file == Fields(1, 1, 1, 1, 0, 0)
    decreases Work(s)
  {
    if Stuck(s) {
      acts := [];
      StuckOnlyWhenIdle(s);
    } else {
      var p: nat :| p < |s.pc| && Enabled(s, Advance(p));
      AdvanceReducesWork(s, p);
      StepReachable(s, Advance(p));
      hide Stuck, AllIdle, Reachable, Work;
      var t := Do(s, Advance(p));
      var more := AllLeave(t);
      ExecCons(Step, s, Advance(p), t, more);
      acts := [Advance(p)] + more;
    }
  }

  ghost predicate Alone(s: State, p: nat) {
    p < |s.pc| && forall q: nat :: q < |s.pc| && q != p ==> s.pc[q] == Idle
  }

  /** Alone at the file, a process that wants to come in is never blocked. */
  lemma AloneIsEnabled(s: State, p: nat)
    requires Reachable(s) && Alone(s, p) && s.pc[p] != Idle
    ensures Enabled(s, Advance(p))
  {
    if !Enabled(s, Advance(p)) {
      forall q: nat | q < |s.pc| ensures !Enabled(s, Advance(q)) {
        assert q == p || s.pc[q] == Idle;
      }
      StuckOnlyWhenIdle(s);
    }
  }

  predicate Enters(c: Pc) { InReaderEnter(c) || InWriterEnter(c) }

  function RegionOf(c: Pc): Pc { if InWriterEnter(c) then Writing else Reading }

  /** A process that comes in goes on coming in, or has got to its region. */
  predicate GoesOnIn(c: Pc, d: Pc) {
    if Enters(d) then RegionOf(d) == RegionOf(c) else d == RegionOf(c)
  }

  lemma EnterGoesOn(f: Fields, c: Pc)
    requires Ready(f, c) && Enters(c)
    ensures GoesOnIn(c, Goto(f, c))
  {
  }

  lemma AloneStep(s: State, p: nat)
    requires Reachable(s) && Alone(s, p) && Enters(s.pc[p])
    ensures Enabled(s, Advance(p))
    ensures var t := Do(s, Advance(p));
            Reachable(t) && Alone(t, p) && Work(t) < Work(s) && GoesOnIn(s.pc[p], t.pc[p])
  {
    AloneIsEnabled(s, p);
    AdvanceReducesWork(s, p);
    StepReachable(s, Advance(p));
    hide Reachable, Work, Effect, Goto, Enters, RegionOf;
    EnterGoesOn(s.file, s.pc[p]);
  }

  lemma {:induction false} AloneGetsIn(s: State, p: nat) returns (acts: seq<Action>)
    requires Reachable(s) && Alone(s, p) && Enters(s.pc[p])
    ensures Exec(Step, s, acts).Some? && p < |Exec(Step, s, acts).value.pc|
    ensures Exec(Step, s, acts).value.pc[p] == RegionOf(s.pc[p])
    decreases Work(s)
  {
    AloneStep(s, p);
    hide Reachable, Work, Do, Enabled, Enters, RegionOf;
    var t := Do(s, Advance(p));
    var more := [];
    if Enters(t.pc[p]) {
      more := AloneGetsIn(t, p);
    }
    ExecCons(Step, s, Advance(p), t, more);
    acts := [Advance(p)] + more;
  }

  /** Every process gets in: from any state in which it is idle, some run brings it to its region,
      to read or to write. */
  lemma EveryProcessGetsIn(s: State, p: nat, forWriting: bool)
    requires Reachable(s) && p < |s.pc| && s.pc[p] == Idle
    ensures exists acts ::
              && Exec(Step, s, acts).Some? && p < |Exec(Step, s, acts).value.pc|
              && Exec(Step, s, acts).value.pc[p] == if forWriting then Writing else Reading
  {
    var leave := AllLeave(s);
    var t := Exec(Step, s, leave).value;
    RunReachable(s, leave);
    var a := if forWriting then StartWrite(p) else StartRead(p);
    StepReachable(t, a);
    var u := Do(t, a);
    hide Reachable, Effect, Goto;
    var enter := AloneGetsIn(u, p);
    ExecCons(Step, t, a, u, enter);
    ExecConcat(Step, s, leave, [a] + enter);
  }

  // ------------------------------------------------------------------- writer preference

  /** A reader past `sem_wait(&read_try)` and not yet out. */
  predicate PastGate(c: Pc) {
    || AtGate(c) || c.FirstAwaitRsc?
    || c.Reading? || c.ExitAwaitRmutex? || c.CountOut? || c.LastPostRsc? || c.ExitPostRmutex?
  }

  function ReadersPastGate(s: State): set<nat> {
    set p: nat | p < |s.pc| && PastGate(s.pc[p])
  }

  ghost predicate GateHeld(s: State) {
    WritersHoldGate(s.file, TallyOf(s.pc))
  }

  /** Along `acts`, writer_count is positive after every step. */
  predicate WritersStay(s: State, acts: seq<Action>)
    requires Exec(Step, s, acts).Some?
    decreases |acts|
  {
    acts == [] ||
    (Do(s, acts[0]).file.writerCount > 0 && WritersStay(Do(s, acts[0]), acts[1..]))
  }

  lemma GateBalance(f: Fields, k: Tally, l: Tally, c: Pc)
    requires Balanced(f, k) && Ready(f, c) && Moved(k, l, c, Goto(f, c))
    requires WritersHoldGate(f, k) && Effect(f, c).writerCount > 0
    ensures WritersHoldGate(Effect(f, c), l)
    ensures !AtGate(c) && c != FirstAwaitRsc && c != AwaitReadTry
  {
  }

  lemma GateAdvance(s: State, p: nat)
    requires Inv(s) && Enabled(s, Advance(p)) && GateHeld(s) && Do(s, Advance(p)).file.writerCount > 0
    ensures GateHeld(Do(s, Advance(p)))
    ensures ReadersPastGate(Do(s, Advance(p))) <= ReadersPastGate(s)
  {
    var t := Do(s, Advance(p));
    MoveTally(s.pc, p, t.pc[p]);
    GateBalance(s.file, TallyOf(s.pc), TallyOf(t.pc), s.pc[p]);
  }

  lemma GateStep(s: State, a: Action)
    requires Inv(s) && Enabled(s, a) && GateHeld(s) && Do(s, a).file.writerCount > 0
    ensures GateHeld(Do(s, a))
    ensures ReadersPastGate(Do(s, a)) <= ReadersPastGate(s)
  {
    if a.Advance? {
      GateAdvance(s, a.p);
    } else {
      MoveTally(s.pc, a.p, Do(s, a).pc[a.p]);
    }
  }

  /** From the moment the writers hold the gate until `writer_count` returns to 0, no reader
      passes the gate: the readers inside only leave, however long the run. */
  lemma {:induction false} WritersComeFirst(s: State, acts: seq<Action>)
    requires Reachable(s) && GateHeld(s) && Exec(Step, s, acts).Some? && WritersStay(s, acts)
    ensures var t := Exec(Step, s, acts).value;
            GateHeld(t) && ReadersPastGate(t) <= ReadersPastGate(s)
    ensures forall p :: p in ReadersPastGate(s) ==> !AtGate(s.pc[p]) && !s.pc[p].FirstAwaitRsc?
    decreases |acts|
  {
    ReachableInv(s);
    forall p | p in ReadersPastGate(s)
      ensures !AtGate(s.pc[p]) && !s.pc[p].FirstAwaitRsc?
    {
      if AtGate(s.pc[p]) {
        CountPositive(s.pc, p, AtGate);
      } else if s.pc[p].FirstAwaitRsc? {
        CountPositive(s.pc, p, IsFirstAwaitRsc);
      }
    }
    if acts != [] {
      GateStep(s, acts[0]);
      StepReachable(s, acts[0]);
      WritersComeFirst(Do(s, acts[0]), acts[1..]);
    }
  }

  // Exactly when a waiting writer can be overtaken.

  /** Some process is about to pass `sem_wait(&read_try)` of reader_enter_region. */
  ghost predicate CanPass(s: State) {
    exists p: nat :: p < |s.pc| && s.pc[p] == AwaitReadTry && s.file.readTry > 0
  }

  /** Writers want the file all along `acts`, and after it a reader can pass the gate. */
  ghost predicate PassesAfter(s: State, acts: seq<Action>) {
    Exec(Step, s, acts).Some? && WritersStay(s, acts) && CanPass(Exec(Step, s, acts).value)
  }

  predicate WaitsToWrite(c: Pc) { c.AwaitWmutex? || c.FirstAwaitReadTry? }

  /** There are only writers, and they have got no further than to the gate. */
  ghost predicate OnlyWaitingWriters(s: State) {
    forall q: nat :: q < |s.pc| ==> WaitsToWrite(s.pc[q])
  }

  /** While writers want the file and do not hold the gate, the first of them waits for it, and
      there is none further on. */
  lemma FirstWriterWaits(s: State)
    requires Inv(s) && s.file.writerCount > 0 && !GateHeld(s)
    ensures s.file.wmutex == 0 && s.file.writerCount == 1
    ensures forall p :: 0 <= p < |s.pc| ==>
      !HasWmutex(s.pc[p]) && !CountedWriter(s.pc[p]) && !IsLastPostReadTry(s.pc[p]) && !HasRsc(s.pc[p])
  {
    CountZero(s.pc, HasWmutex);
    CountZero(s.pc, CountedWriter);
    CountZero(s.pc, IsLastPostReadTry);
    forall p | 0 <= p < |s.pc|
      ensures !HasWmutex(s.pc[p]) && !CountedWriter(s.pc[p]) && !IsLastPostReadTry(s.pc[p]) && !HasRsc(s.pc[p])
    {
      assert !HasWmutex(s.pc[p]) && !CountedWriter(s.pc[p]) && !IsLastPostReadTry(s.pc[p]);
    }
  }

  /** The step of waiting writers alone: the first one takes the gate. */
  lemma WaitingWritersStep(s: State, a: Action)
    requires Inv(s) && s.file.writerCount > 0 && !GateHeld(s) && OnlyWaitingWriters(s) && Enabled(s, a)
    ensures GateHeld(Do(s, a))
  {
    FirstWriterWaits(s);
    assert WaitsToWrite(s.pc[a.p]);
    MoveTally(s.pc, a.p, PostWmutex);
  }

  lemma NobodyPasses(s: State, acts: seq<Action>)
    requires Reachable(s) && s.file.writerCount > 0 && (GateHeld(s) || OnlyWaitingWriters(s))
    ensures !PassesAfter(s, acts)
  {
    if Exec(Step, s, acts).Some? && WritersStay(s, acts) {
      var t := Exec(Step, s, acts).value;
      RunReachable(s, acts);
      ReachableInv(s);
      ReachableInv(t);
      if GateHeld(s) {
        WritersComeFirst(s, acts);
      } else if acts != [] {
        WaitingWritersStep(s, acts[0]);
        StepReachable(s, acts[0]);
        WritersComeFirst(Do(s, acts[0]), acts[1..]);
      } else {
        forall p: nat | p < |s.pc| ensures s.pc[p] != AwaitReadTry {
          assert WaitsToWrite(s.pc[p]);
        }
      }
    }
  }

  predicate InReader(c: Pc) { InReaderEnter(c) || c.Reading? || InReaderExit(c) }

  /** A reader's step leaves the writers where they are. */
  lemma ReaderStep(s: State, p: nat)
    requires Inv(s) && s.file.writerCount > 0 && !GateHeld(s) && Enabled(s, Advance(p)) && InReader(s.pc[p])
    ensures var t := Do(s, Advance(p));
            Inv(t) && t.file.writerCount == s.file.writerCount && !GateHeld(t) && !WaitsToWrite(t.pc[p])
  {
    StepKeepsInv(s, Advance(p));
    MoveTally(s.pc, p, Goto(s.file, s.pc[p]));
  }

  /** When no reader can move, none is past the gate, and the gate is open. */
  lemma BlockedReaders(s: State)
    requires Inv(s) && s.file.writerCount > 0 && !GateHeld(s)
    requires forall p: nat :: p < |s.pc| && InReader(s.pc[p]) ==> !Enabled(s, Advance(p))
    ensures s.file.readTry == 1
    ensures forall p: nat :: p < |s.pc| && InReader(s.pc[p]) ==> s.pc[p] == AwaitReadTry
  {
    FirstWriterWaits(s);
    BlockedHave(s, HasRmutex);
    BlockedHave(s, HasRsc);
    BlockedHave(s, IsLastPostRsc);
    if Count(s.pc, IsFirstAwaitRsc) > 0 {
      assert s.file.rsc == 1;
      BlockedHave(s, IsFirstAwaitRsc);
    }
    CountZero(s.pc, IsFirstAwaitRsc);
    assert s.file.rmutex == 1;
    BlockedHave(s, AtGate);
    hide Balanced, WritersHoldGate;
    forall p: nat | p < |s.pc| && InReader(s.pc[p])
      ensures s.pc[p] == AwaitReadTry
    {
      assert !Enabled(s, Advance(p)) && !IsFirstAwaitRsc(s.pc[p]);
    }
  }

  /** Among blocked readers there is none of a class that never blocks. */
  lemma BlockedHave(s: State, k: Pc -> bool)
    requires forall p: nat :: p < |s.pc| && InReader(s.pc[p]) ==> !Enabled(s, Advance(p))
    requires forall c :: k(c) && InReader(c) ==> Ready(s.file, c)
    requires forall p: nat :: p < |s.pc| && k(s.pc[p]) ==> InReader(s.pc[p])
    ensures Count(s.pc, k) == 0
  {
    forall i | 0 <= i < |s.pc| ensures !k(s.pc[i]) {
      assert InReader(s.pc[i]) ==> !Enabled(s, Advance(i));
    }
    CountZero(s.pc, k);
  }

  /** As long as some process is not a waiting writer, let the readers run until none can move:
      then the gate is open, and one of them stands before it or an idle process can come. */
  lemma {:induction false} SomeonePasses(s: State, q: nat) returns (acts: seq<Action>)
    requires Inv(s) && s.file.writerCount > 0 && !GateHeld(s) && q < |s.pc| && !WaitsToWrite(s.pc[q])
    ensures PassesAfter(s, acts)
    decreases Work(s)
  {
    if p: nat :| p < |s.pc| && InReader(s.pc[p]) && Enabled(s, Advance(p)) {
      if s.pc[p] == AwaitReadTry {
        acts := [];
      } else {
        var t := Do(s, Advance(p));
        ReaderStep(s, p);
        AdvanceReducesWork(s, p);
        var more := SomeonePasses(t, p);
        acts := [Advance(p)] + more;
        StepThenRun(s, Advance(p), more);
      }
    } else {
      FirstWriterWaits(s);
      BlockedReaders(s);
      assert s.pc[q] == Idle;
      var t := Do(s, StartRead(q));
      assert t.pc[q] == AwaitReadTry && t.file == s.file;
      acts := [StartRead(q)] + [];
      assert PassesAfter(t, []);
      StepThenRun(s, StartRead(q), []);
    }
  }

  lemma StepThenRun(s: State, a: Action, more: seq<Action>)
    requires Enabled(s, a) && Do(s, a).file.writerCount > 0 && PassesAfter(Do(s, a), more)
    ensures PassesAfter(s, [a] + more)
  {
    assert ([a] + more)[1..] == more;
    ExecCons(Step, s, a, Do(s, a), more);
  }

  /** While writers want the file, a reader can still come to pass the gate if and only if the
      writers do not hold it yet and some process is not itself a writer waiting to come in. */
  lemma PreferenceIff(s: State)
    requires Reachable(s) && s.file.writerCount > 0
    ensures (exists acts :: PassesAfter(s, acts)) <==>
            !GateHeld(s) && exists q: nat :: q < |s.pc| && s.pc[q] != AwaitWmutex && s.pc[q] != FirstAwaitReadTry
  {
    ReachableInv(s);
    if GateHeld(s) || OnlyWaitingWriters(s) {
      forall acts ensures !PassesAfter(s, acts) {
        NobodyPasses(s, acts);
      }
    } else {
      var q: nat :| q < |s.pc| && !WaitsToWrite(s.pc[q]);
      var acts := SomeonePasses(s, q);
    }
  }

  // -------------------------------------------------------------------------- refinement

  /** The lock as its callers see it: who reads and who writes. */
  datatype RwLock = RwLock(readers: set<nat>, writers: set<nat>)

  predicate AcquiresRead(l: RwLock, m: RwLock, p: nat) {
    l.writers == {} && p !in l.readers && m == RwLock(l.readers + {p}, {})
  }

  predicate ReleasesRead(l: RwLock, m: RwLock, p: nat) {
    p in l.readers && m == RwLock(l.readers - {p}, l.writers)
  }

  predicate AcquiresWrite(l: RwLock, m: RwLock, p: nat) {
    l == RwLock({}, {}) && m == RwLock({}, {p})
  }

  predicate ReleasesWrite(l: RwLock, m: RwLock, p: nat) {
    l.writers == {p} && m == RwLock(l.readers, {})
  }

  /** A step of process `p` on the abstract lock: one of the four operations, or nothing. */
  predicate LockStep(l: RwLock, m: RwLock, p: nat) {
    || l == m
    || AcquiresRead(l, m, p) || ReleasesRead(l, m, p)
    || AcquiresWrite(l, m, p) || ReleasesWrite(l, m, p)
  }

  function Holders(s: State, k: Pc -> bool): set<nat> {
    set p: nat | p < |s.pc| && k(s.pc[p])
  }

  function LockOf(s: State): RwLock {
    RwLock(Holders(s, CountedReader), Holders(s, HasRsc))
  }

  lemma MoveHolders(s: State, a: Action, k: Pc -> bool)
    requires Enabled(s, a)
    ensures Holders(Do(s, a), k) ==
            Holders(s, k) - {a.p} + (if k(Do(s, a).pc[a.p]) then {a.p} else {})
    ensures a.p in Holders(s, k) <==> k(s.pc[a.p])
  {
  }

  lemma NoHolders(s: State, k: Pc -> bool)
    ensures Holders(s, k) == {} <==> Count(s.pc, k) == 0
  {
    CountZero(s.pc, k);
    if p: nat :| p < |s.pc| && k(s.pc[p]) {
      assert p in Holders(s, k);
    }
  }

  lemma SoleHolder(s: State, p: nat, k: Pc -> bool)
    requires p in Holders(s, k) && Count(s.pc, k) <= 1
    ensures Holders(s, k) == {p}
  {
    forall q | q in Holders(s, k)
      ensures q == p
    {
      if q != p {
        CountTwo(s.pc, p, q, k);
      }
    }
  }

  /** A reader is taken in only while nobody holds `rsc` for writing, and a writer only while
      nobody holds it at all. */
  lemma AcquireNeeds(f: Fields, k: Tally, l: Tally, c: Pc)
    requires Balanced(f, k) && Ready(f, c) && Moved(k, l, c, Goto(f, c))
    ensures CountedReader(Goto(f, c)) && !CountedReader(c) ==> k.rscHeld == 0
    ensures HasRsc(Goto(f, c)) && !HasRsc(c) ==> k.rscHeld == 0 && k.countedReaders == 0
    ensures HasRsc(c) ==> k.rscHeld == 1
  {
  }

  /** What the moves in and out of the two classes amount to on the abstract lock. */
  lemma LockMoves(l: RwLock, m: RwLock, p: nat, isReader: bool, isWriter: bool)
    requires m == RwLock(l.readers - {p} + (if isReader then {p} else {}),
                         l.writers - {p} + (if isWriter then {p} else {}))
    requires isReader && p !in l.readers ==> l.writers == {}
    requires isWriter && p !in l.writers ==> l == RwLock({}, {})
    requires p in l.writers ==> l.writers == {p} && (isWriter || !isReader)
    requires p in l.readers ==> !isWriter
    requires !(isReader && isWriter) && !(p in l.readers && p in l.writers)
    ensures LockStep(l, m, p)
  {
  }

  lemma AdvanceRefinesLock(s: State, p: nat)
    requires Inv(s) && Enabled(s, Advance(p))
    ensures LockStep(LockOf(s), LockOf(Do(s, Advance(p))), p)
  {
    var c, d := s.pc[p], Goto(s.file, s.pc[p]);
    MoveTally(s.pc, p, d);
    AcquireNeeds(s.file, TallyOf(s.pc), TallyOf(s.pc[p := d]), c);
    MoveHolders(s, Advance(p), CountedReader);
    MoveHolders(s, Advance(p), HasRsc);
    NoHolders(s, CountedReader);
    NoHolders(s, HasRsc);
    if HasRsc(c) {
      SoleHolder(s, p, HasRsc);
    }
    LockMoves(LockOf(s), LockOf(Do(s, Advance(p))), p, CountedReader(d), HasRsc(d));
  }

  /** Every step of sync.c is a step of the abstract lock by the same process, or invisible. */
  lemma RefinesLock(s: State, a: Action)
    requires Reachable(s) && Enabled(s, a)
    ensures LockStep(LockOf(s), LockOf(Do(s, a)), a.p)
  {
    ReachableInv(s);
    if a.Advance? {
      AdvanceRefinesLock(s, a.p);
    } else {
      MoveHolders(s, a, CountedReader);
      MoveHolders(s, a, HasRsc);
    }
  }

  /** The abstract lock is free at first ... */
  lemma LockStartsFree(n: nat)
    ensures LockOf(Init(n)) == RwLock({}, {})
  {
  }

  /** ... and only ever held by readers or by one writer. */
  lemma LockIsExclusive(s: State)
    requires Reachable(s)
    ensures LockOf(s).writers == {} || (LockOf(s).readers == {} && exists p :: LockOf(s).writers == {p})
  {
    ReachableInv(s);
    RscIsExclusive(s.file, TallyOf(s.pc));
    hide Balanced, Holders;
    NoHolders(s, CountedReader);
    if p :| p in Holders(s, HasRsc) {
      NoHolders(s, HasRsc);
      SoleHolder(s, p, HasRsc);
    }
  }

  lemma RscIsExclusive(f: Fields, k: Tally)
    requires Balanced(f, k)
    ensures k.rscHeld <= 1 && (k.rscHeld == 0 || k.countedReaders == 0)
  {
  }

  /** The abstract lock at every state of a run. */
  function LockTrace(s: State, acts: seq<Action>): seq<RwLock>
    requires Exec(Step, s, acts).Some?
    decreases |acts|
  {
    [LockOf(s)] + if acts == [] then [] else LockTrace(Do(s, acts[0]), acts[1..])
  }

  predicate IsLockRun(locks: seq<RwLock>, acts: seq<Action>) {
    |locks| == |acts| + 1 && forall i :: 0 <= i < |acts| ==> LockStep(locks[i], locks[i + 1], acts[i].p)
  }

  /** Whole runs of sync.c are runs of the abstract lock. */
  lemma {:induction false} RunRefinesLock(s: State, acts: seq<Action>)
    requires Reachable(s) && Exec(Step, s, acts).Some?
    ensures IsLockRun(LockTrace(s, acts), acts)
    ensures LockTrace(s, acts)[0] == LockOf(s) && LockTrace(s, acts)[|acts|] == LockOf(Exec(Step, s, acts).value)
    decreases |acts|
  {
    hide LockStep, LockOf;
    if acts != [] {
      var t := Do(s, acts[0]);
      RefinesLock(s, acts[0]);
      StepReachable(s, acts[0]);
      RunRefinesLock(t, acts[1..]);
      var locks, rest := LockTrace(s, acts), LockTrace(t, acts[1..]);
      forall i | 0 <= i < |acts| ensures LockStep(locks[i], locks[i + 1], acts[i].p) {
        if i > 0 {
          assert LockStep(rest[i - 1], rest[i], acts[1..][i - 1].p);
        }
      }
    }
  }

  // ------------------------------------------------ where writer preference does not reach

  /** Process 1 is the first writer and waits at line 76, while process 0, alone at the file,
      is `i` steps into a visit to it. */
  function Visiting(i: nat): State
    requires i < 12
  {
    match i
    case 0 => State(Fields(1, 1, 0, 1, 0, 1), [Idle, FirstAwaitReadTry])
    case 1 => State(Fields(1, 1, 0, 1, 0, 1), [AwaitReadTry, FirstAwaitReadTry])
    case 2 => State(Fields(0, 1, 0, 1, 0, 1), [AwaitRmutex, FirstAwaitReadTry])
    case 3 => State(Fields(0, 0, 0, 1, 0, 1), [CountIn, FirstAwaitReadTry])
    case 4 => State(Fields(0, 0, 0, 1, 1, 1), [FirstAwaitRsc, FirstAwaitReadTry])
    case 5 => State(Fields(0, 0, 0, 0, 1, 1), [PostRmutex, FirstAwaitReadTry])
    case 6 => State(Fields(0, 1, 0, 0, 1, 1), [PostReadTry, FirstAwaitReadTry])
    case 7 => State(Fields(1, 1, 0, 0, 1, 1), [Reading, FirstAwaitReadTry])
    case 8 => State(Fields(1, 1, 0, 0, 1, 1), [ExitAwaitRmutex, FirstAwaitReadTry])
    case 9 => State(Fields(1, 0, 0, 0, 1, 1), [CountOut, FirstAwaitReadTry])
    case 10 => State(Fields(1, 0, 0, 0, 0, 1), [LastPostRsc, FirstAwaitReadTry])
    case 11 => State(Fields(1, 0, 0, 1, 0, 1), [ExitPostRmutex, FirstAwaitReadTry])
  }

  function Then(i: nat): nat { if i == 11 then 0 else i + 1 }
  function Left(i: nat): int { if i == 0 then 0 else 12 - i }

  /** The rest of the visit of process 0, from step `i` on, and `k` visits after it. */
  function Visits(i: nat, k: nat): seq<Action>
    requires i < 12
    decreases 12 * k + Left(i)
  {
    if i == 0 then
      if k == 0 then [] else [StartRead(0)] + Visits(1, k - 1)
    else
      [Advance(0)] + Visits(Then(i), k)
  }

  lemma VisitStep(i: nat)
    requires i < 12
    ensures Step(Visiting(i), if i == 0 then StartRead(0) else Advance(0)) == Some(Visiting(Then(i)))
  {
    assert Visiting(Then(i)).pc == Visiting(i).pc[0 := Visiting(Then(i)).pc[0]];
  }

  lemma {:induction false} VisitsRun(i: nat, k: nat, s: State, start: State)
    requires i < 12 && s == Visiting(i) && start == Visiting(0)
    ensures Exec(Step, s, Visits(i, k)) == Some(start)
    decreases 12 * k + Left(i)
  {
    hide Step, Visiting;
    if i > 0 || k > 0 {
      var j, l := Then(i), if i == 0 then k - 1 else k;
      var a, next := if i == 0 then StartRead(0) else Advance(0), Visiting(j);
      assert Step(s, a) == Some(next) by {
        VisitStep(i);
      }
      VisitsRun(j, l, next, start);
      assert Visits(i, k) == [a] + Visits(j, l);
      ExecCons(Step, s, a, next, Visits(j, l));
    }
  }

  lemma {:induction false} VisitsLength(i: nat, k: nat)
    requires i < 12
    ensures |Visits(i, k)| == 12 * k + Left(i)
    decreases 12 * k + Left(i)
  {
    if i > 0 || k > 0 {
      VisitsLength(Then(i), if i == 0 then k - 1 else k);
    }
  }

  /** Process 1 after its first two steps towards writing. */
  function Arriving(i: nat): State {
    if i == 0 then State(Fields(1, 1, 1, 1, 0, 0), [Idle, AwaitWmutex])
    else State(Fields(1, 1, 0, 1, 0, 0), [Idle, WriterIn])
  }

  lemma ArrivalBegins()
    ensures Step(Init(2), StartWrite(1)) == Some(Arriving(0))
  {
    assert Init(2).pc[1 := AwaitWmutex] == [Idle, AwaitWmutex];
  }

  lemma ArrivalGoesOn()
    ensures Step(Arriving(0), Advance(1)) == Some(Arriving(1))
  {
    assert [Idle, AwaitWmutex][1 := WriterIn] == [Idle, WriterIn];
  }

  lemma ArrivalEnds()
    ensures Step(Arriving(1), Advance(1)) == Some(Visiting(0))
  {
    assert [Idle, WriterIn][1 := FirstAwaitReadTry] == [Idle, FirstAwaitReadTry];
  }

  lemma WaitingWriterArrives()
    ensures Reachable(Visiting(0))
  {
    hide Step, Visiting, Arriving;
    ArrivalBegins();
    ArrivalGoesOn();
    ArrivalEnds();
    ReachesSelf(Step, Init(2));
    ReachesStep(Step, Init(2), Init(2), StartWrite(1));
    ReachesStep(Step, Init(2), Arriving(0), Advance(1));
    ReachesStep(Step, Init(2), Arriving(1), Advance(1));
  }

  /** Until it gets `read_try`, the first writer can be overtaken: for every `k` there is a run
      in which a reader comes and goes `k` times while the writer waits. */
  lemma WaitingWriterCanBeOvertaken(k: nat)
    ensures Reachable(Visiting(0)) && Visiting(0).pc[1] == FirstAwaitReadTry
    ensures Exec(Step, Visiting(0), Visits(0, k)) == Some(Visiting(0))
    ensures |Visits(0, k)| == 12 * k
  {
    WaitingWriterArrives();
    VisitsLength(0, k);
    VisitsRun(0, k, Visiting(0), Visiting(0));
  }

  // ---------------------------------------------------------------- the lock, in place

  /** A `struct safe_file` in shared memory.  Each method executes, for process `p`, the one
      statement of the C function of the same name that `p` has reached; it reports whether the
      statement ran, or left `p` blocked in `sem_wait` with nothing changed. */
  class SafeFile {
    var readTry: nat
    var rmutex: nat
    var wmutex: nat
    var rsc: nat
    var readerCount: int
    var writerCount: int
    var pc: seq<Pc>  // the processes that use the file

    function View(): State
      reads this
    {
      State(Fields(readTry, rmutex, wmutex, rsc, readerCount, writerCount), pc)
    }

    constructor InitSfile(n: nat)
      ensures View() == Init(n) && Reachable(View())
    {
      readTry, rmutex, wmutex, rsc := 1, 1, 1, 1;
      readerCount, writerCount := 0, 0;
      pc := seq(n, _ => Idle);
      new;
      ReachesSelf(Step, Init(n));
    }

    method Call(p: nat, forWriting: bool)
      requires Reachable(View()) && p < |pc| && pc[p] == Idle
      modifies this
      ensures View() == old(View()).(pc := old(pc)[p := if forWriting then AwaitWmutex else AwaitReadTry])
      ensures Reachable(View())
    {
      ghost var a := if forWriting then StartWrite(p) else StartRead(p);
      StepReachable(View(), a);
      pc := pc[p := if forWriting then AwaitWmutex else AwaitReadTry];
    }

    /** The caller is done reading or writing and calls the exit function. */
    method Leave(p: nat)
      requires Reachable(View()) && p < |pc| && (pc[p] == Reading || pc[p] == Writing)
      modifies this
      ensures View() == Do(old(View()), Advance(p)) && Reachable(View())
    {
      StepReachable(View(), Advance(p));
      pc := pc[p := if pc[p] == Reading then ExitAwaitRmutex else PostRsc];
    }

    method ReaderEnterRegion(p: nat) returns (ran: bool)
      requires Reachable(View()) && p < |pc| && InReaderEnter(pc[p])
      modifies this
      ensures ran == old(Enabled(View(), Advance(p)))
      ensures View() == if ran then Do(old(View()), Advance(p)) else old(View())
      ensures Reachable(View())
    {
      if Enabled(View(), Advance(p)) {
        StepReachable(View(), Advance(p));
      }
      ran := true;
      match pc[p] {
        case AwaitReadTry =>
          if readTry == 0 { return false; }
          readTry, pc := readTry - 1, pc[p := AwaitRmutex];
        case AwaitRmutex =>
          if rmutex == 0 { return false; }
          rmutex, pc := rmutex - 1, pc[p := CountIn];
        case CountIn =>
          readerCount := readerCount + 1;
          if readerCount == 1 {
            pc := pc[p := FirstAwaitRsc];
          } else {
            pc := pc[p := PostRmutex];
          }
        case FirstAwaitRsc =>
          if rsc == 0 { return false; }
          rsc, pc := rsc - 1, pc[p := PostRmutex];
        case PostRmutex =>
          rmutex, pc := rmutex + 1, pc[p := PostReadTry];
        case PostReadTry =>
          readTry, pc := readTry + 1, pc[p := Reading];
      }
    }

    method ReaderExitRegion(p: nat) returns (ran: bool)
      requires Reachable(View()) && p < |pc| && InReaderExit(pc[p])
      modifies this
      ensures ran == old(Enabled(View(), Advance(p)))
      ensures View() == if ran then Do(old(View()), Advance(p)) else old(View())
      ensures Reachable(View())
    {
      if Enabled(View(), Advance(p)) {
        StepReachable(View(), Advance(p));
      }
      ran := true;
      match pc[p] {
        case ExitAwaitRmutex =>
          if rmutex == 0 { return false; }
          rmutex, pc := rmutex - 1, pc[p := CountOut];
        case CountOut =>
          readerCount := readerCount - 1;
          if readerCount == 0 {
            pc := pc[p := LastPostRsc];
          } else {
            pc := pc[p := ExitPostRmutex];
          }
        case LastPostRsc =>
          rsc, pc := rsc + 1, pc[p := ExitPostRmutex];
        case ExitPostRmutex =>
          rmutex, pc := rmutex + 1, pc[p := Idle];
      }
    }

    method WriterEnterRegion(p: nat) returns (ran: bool)
      requires Reachable(View()) && p < |pc| && InWriterEnter(pc[p])
      modifies this
      ensures ran == old(Enabled(View(), Advance(p)))
      ensures View() == if ran then Do(old(View()), Advance(p)) else old(View())
      ensures Reachable(View())
    {
      if Enabled(View(), Advance(p)) {
        StepReachable(View(), Advance(p));
      }
      ran := true;
      match pc[p] {
        case AwaitWmutex =>
          if wmutex == 0 { return false; }
          wmutex, pc := wmutex - 1, pc[p := WriterIn];
        case WriterIn =>
          writerCount := writerCount + 1;
          if writerCount == 1 {
            pc := pc[p := FirstAwaitReadTry];
          } else {
            pc := pc[p := PostWmutex];
          }
        case FirstAwaitReadTry =>
          if readTry == 0 { return false; }
          readTry, pc := readTry - 1, pc[p := PostWmutex];
        case PostWmutex =>
          wmutex, pc := wmutex + 1, pc[p := AwaitRsc];
        case AwaitRsc =>
          if rsc == 0 { return false; }
          rsc, pc := rsc - 1, pc[p := Writing];
      }
    }

    method WriterExitRegion(p: nat) returns (ran: bool)
      requires Reachable(View()) && p < |pc| && InWriterExit(pc[p])
      modifies this
      ensures ran == old(Enabled(View(), Advance(p)))
      ensures View() == if ran then Do(old(View()), Advance(p)) else old(View())
      ensures Reachable(View())
    {
      if Enabled(View(), Advance(p)) {
        StepReachable(View(), Advance(p));
      }
      ran := true;
      match pc[p] {
        case PostRsc =>
          rsc, pc := rsc + 1, pc[p := ExitAwaitWmutex];
        case ExitAwaitWmutex =>
          if wmutex == 0 { return false; }
          wmutex, pc := wmutex - 1, pc[p := WriterOut];
        case WriterOut =>
          writerCount := writerCount - 1;
          if writerCount == 0 {
            pc := pc[p := LastPostReadTry];
          } else {
            pc := pc[p := ExitPostWmutex];
          }
        case LastPostReadTry =>
          readTry, pc := readTry + 1, pc[p := ExitPostWmutex];
        case ExitPostWmutex =>
          wmutex, pc := wmutex + 1, pc[p := Idle];
      }
    }
  }
}
