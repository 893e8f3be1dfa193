// What a stop request leaves of a copy (Homework5/200104004104_main.c): which entries of the tree
// are made and which are passed over, given the files that were opened and given up.

module CopierStop {
  import opened Copier
  import opened Counting
  import opened FileTree
  import opened Runs

  function Parent(p: Path): Path {
    if p == [] then [] else p[..|p| - 1]
  }

  /** `p` lies in the directory `d` or in one below it. */
  predicate Under(d: Path, p: Path) {
    |d| < |p| && p[..|d|] == d
  }

  predicate IsDropped(stage: map<Path, Stage>, p: Path) {
    p in stage && stage[p].Dropped?
  }

  /** Before entry `i` of the plan, a file was given up in one of the directories that it lies in:
      the definition of what a stop passes over that does not mention the traversal. */
  ghost predicate Skipped(plan: seq<Make>, stage: map<Path, Stage>, i: nat)
    requires i < |plan|
  {
    exists j :: 0 <= j < i && IsDropped(stage, plan[j].path) && Under(Parent(plan[j].path), plan[i].path)
  }

  /** How many of the first `n` entries are of a kind and were not passed over. */
  ghost function MadeCount(plan: seq<Make>, stage: map<Path, Stage>, n: nat, k: Entry -> bool): nat
    requires n <= |plan|
  {
    if n == 0 then 0
    else MadeCount(plan, stage, n - 1, k) + One(k(plan[n - 1].entry) && !Skipped(plan, stage, n - 1))
  }

  predicate SameAt(fs: map<Path, Entry>, fs': map<Path, Entry>, p: Path) {
    (p in fs <==> p in fs') && (p in fs ==> fs[p] == fs'[p])
  }

  /** What has become of entry `i` once the walk has passed it. */
  ghost predicate Outcome(plan: seq<Make>, fs1: map<Path, Entry>, s: State, i: nat)
    requires i < |plan|
  {
    if Skipped(plan, s.stage, i) then plan[i].path !in s.stage && SameAt(fs1, s.fs, plan[i].path)
    else IsMade(s, plan[i])
  }

  // -------------------------------------------------------------------------- the stack

  predicate NameIn(name: string, nodes: seq<Node>) {
    exists i :: 0 <= i < |nodes| && nodes[i].name == name
  }

  /** `d` is an entry of the directory on top of the stack that its loop has passed. */
  ghost predicate LeftBehind(d: Path, stack: seq<Frame>) {
    stack != [] ==>
      d != [] && Parent(d) == stack[0].path && !NameIn(d[|d| - 1], stack[0].rest)
  }

  /** Every active call works in a directory that the call below it has passed. */
  ghost predicate StackOk(stack: seq<Frame>)
    decreases |stack|
  {
    stack != [] ==>
      WellFormed(stack[0].rest) && LeftBehind(stack[0].path, stack[1..]) && StackOk(stack[1..])
  }

  /** Nothing that is still to be made lies in a directory that was left behind. */
  lemma {:induction false} OutsideOf(d: Path, stack: seq<Frame>)
    requires StackOk(stack) && LeftBehind(d, stack)
    ensures forall m :: m in Todo(stack) ==> !Under(d, m.path)
    decreases |stack|
  {
    if stack != [] {
      var path, rest := stack[0].path, stack[0].rest;
      PlanIsBelow(path, rest);
      OutsideOf(path, stack[1..]);
      forall m | m in Todo(stack) ensures !Under(d, m.path) {
        if m in Plan(path, rest) {
          var i :| 0 <= i < |rest| && Below(path, rest[i].name, m);
          assert rest[i].name != d[|d| - 1];
          assert |m.path| >= |d| ==> m.path[..|d|][|d| - 1] == m.path[|d| - 1];
        } else {
          assert m in Todo(stack[1..]);
          assert |m.path| >= |d| ==> m.path[..|d|][..|path|] == m.path[..|path|];
        }
      }
    }
  }

  lemma TailIsWellFormed(nodes: seq<Node>)
    requires WellFormed(nodes) && nodes != []
    ensures WellFormed(nodes[1..]) && !NameIn(nodes[0].name, nodes[1..])
    ensures nodes[0].Dir? ==> WellFormed(nodes[0].entries)
  {
  }

  /** The loop on top of the stack goes on to its next entry. */
  lemma PassesEntry(path: Path, rest: seq<Node>, below: seq<Frame>)
    requires StackOk([Frame(path, rest)] + below) && rest != []
    ensures StackOk([Frame(path, rest[1..])] + below)
  {
    TailIsWellFormed(rest);
    hide WellFormed, LeftBehind;
    assert ([Frame(path, rest)] + below)[1..] == below;
    assert ([Frame(path, rest[1..])] + below)[1..] == below;
  }

  /** A call for a directory that the loop on top of the stack has just passed. */
  lemma EntersEntry(path: Path, rest: seq<Node>, below: seq<Frame>, name: string, entries: seq<Node>)
    requires StackOk([Frame(path, rest)] + below) && !NameIn(name, rest) && WellFormed(entries)
    ensures StackOk([Frame(path + [name], entries)] + ([Frame(path, rest)] + below))
  {
    var stack := [Frame(path, rest)] + below;
    hide StackOk, WellFormed;
    assert LeftBehind(path + [name], stack);
    assert ([Frame(path + [name], entries)] + stack)[1..] == stack;
    Stacked(Frame(path + [name], entries), stack);
  }

  lemma Stacked(frame: Frame, stack: seq<Frame>)
    requires WellFormed(frame.rest) && LeftBehind(frame.path, stack) && StackOk(stack)
    ensures StackOk([frame] + stack)
  {
    hide WellFormed, LeftBehind;
    assert ([frame] + stack)[1..] == stack;
  }

  lemma WalkKeepsStack(s: State)
    requires s.manager.Walking? && StackOk(s.stack)
    ensures StackOk(Walk(s).stack)
    ensures var t := Walk(s);
            t.manager.Adding? ==> t.stack != [] && t.manager.f.path != [] && Parent(t.manager.f.path) == t.stack[0].path
  {
    var t := Walk(s);
    if s.stack != [] && s.stack[0].rest != [] {
      var Frame(path, rest) := s.stack[0];
      TailIsWellFormed(rest);
      assert s.stack == [Frame(path, rest)] + s.stack[1..];
      PassesEntry(path, rest, s.stack[1..]);
      hide StackOk, WellFormed, NameIn;
      match rest[0]
      case Dir(name, entries) => EntersEntry(path, rest[1..], s.stack[1..], name, entries);
      case File(name, _) => assert Parent(path + [name]) == path;
      case Fifo(_) =>
      case Other(_) =>
    }
  }

  // ---------------------------------------------------------------------- the invariant

  /** How many entries of the plan the walk has passed. */
  function Pos(plan: seq<Make>, stack: seq<Frame>): nat
    requires IsSuffix(Todo(stack), plan)
  {
    |plan| - |Todo(stack)|
  }

  /** The file in the manager's hand is the last entry that the walk has passed, and lies in the
      directory on top of the stack. */
  ghost predicate PendingOk(plan: seq<Make>, s: State)
    requires IsSuffix(Todo(s.stack), plan)
  {
    forall f :: f in Pending(s.manager) ==>
      && s.stack != [] && f.path != [] && Parent(f.path) == s.stack[0].path
      && Pos(plan, s.stack) > 0 && plan[Pos(plan, s.stack) - 1] == f
  }

  /** The walk is past every file that was given up and everything after it in its directory. */
  ghost predicate DroppedOk(plan: seq<Make>, stage: map<Path, Stage>, pos: nat)
    requires pos <= |plan|
  {
    forall p, i :: IsDropped(stage, p) && pos <= i < |plan| ==> !Under(Parent(p), plan[i].path)
  }

  ghost predicate StopInv(plan: seq<Make>, fs1: map<Path, Entry>, s: State)
    requires IsSuffix(Todo(s.stack), plan)
  {
    var pos := Pos(plan, s.stack);
    && DroppedOk(plan, s.stage, pos)
    && (forall i :: 0 <= i < pos ==> Outcome(plan, fs1, s, i))
    && (forall i :: pos <= i < |plan| ==> SameAt(fs1, s.fs, plan[i].path) && plan[i].path !in s.stage)
    && s.directories == MadeCount(plan, s.stage, pos, IsDir)
    && s.fifos == MadeCount(plan, s.stage, pos, IsFifo)
  }

  ghost predicate StopAll(plan: seq<Make>, fs1: map<Path, Entry>, s: State) {
    && DistinctPaths(plan) && IsSuffix(Todo(s.stack), plan)
    && StackOk(s.stack) && PendingOk(plan, s) && StopInv(plan, fs1, s)
  }

  lemma {:induction false} SameCount(
      plan: seq<Make>, stage: map<Path, Stage>, stage': map<Path, Stage>, n: nat, k: Entry -> bool)
    requires n <= |plan| && forall i :: 0 <= i < n ==> (Skipped(plan, stage, i) <==> Skipped(plan, stage', i))
    ensures MadeCount(plan, stage', n, k) == MadeCount(plan, stage, n, k)
  {
    if n > 0 {
      SameCount(plan, stage, stage', n - 1, k);
    }
  }

  lemma {:induction false} SkippedCount(plan: seq<Make>, stage: map<Path, Stage>, m: nat, n: nat, k: Entry -> bool)
    requires m <= n <= |plan| && forall i :: m <= i < n ==> Skipped(plan, stage, i)
    ensures MadeCount(plan, stage, n, k) == MadeCount(plan, stage, m, k)
  {
    if m < n {
      SkippedCount(plan, stage, m, n - 1, k);
    }
  }

  lemma SameSkipped(plan: seq<Make>, stage: map<Path, Stage>, stage': map<Path, Stage>, i: nat)
    requires i < |plan|
    requires forall j :: 0 <= j < i ==> (IsDropped(stage, plan[j].path) <==> IsDropped(stage', plan[j].path))
    ensures Skipped(plan, stage, i) <==> Skipped(plan, stage', i)
  {
  }

  // ------------------------------------------------------------------ the steps keep it

  /** A step that makes nothing and gives up nothing, and writes to no path but `q`, at which a
      file was opened. */
  ghost predicate Calm(plan: seq<Make>, s: State, t: State, q: Path) {
    && Todo(t.stack) == Todo(s.stack) && t.directories == s.directories && t.fifos == s.fifos
    && (forall p :: p in t.stage <==> p in s.stage)
    && (forall p :: IsDropped(t.stage, p) <==> IsDropped(s.stage, p))
    && (forall p :: p != q ==> SameAt(s.fs, t.fs, p))
    && (SameAt(s.fs, t.fs, q)
        || (q in s.stage && forall i :: 0 <= i < |plan| && plan[i].path == q ==> plan[i].entry.FileEntry?))
  }

  lemma CalmOutcome(plan: seq<Make>, fs1: map<Path, Entry>, s: State, t: State, q: Path, i: nat)
    requires Calm(plan, s, t, q) && i < |plan| && Outcome(plan, fs1, s, i)
    ensures Outcome(plan, fs1, t, i)
  {
    SameSkipped(plan, s.stage, t.stage, i);
    hide Skipped;
    var p := plan[i].path;
    assert p == q || SameAt(s.fs, t.fs, p);
  }

  lemma CalmKeeps(plan: seq<Make>, fs1: map<Path, Entry>, s: State, t: State, q: Path)
    requires IsSuffix(Todo(s.stack), plan) && StopInv(plan, fs1, s) && Calm(plan, s, t, q)
    ensures StopInv(plan, fs1, t)
  {
    hide Todo, Outcome, Skipped, DroppedOk;
    var pos := Pos(plan, s.stack);
    assert DroppedOk(plan, t.stage, pos) by {
      CalmDropped(plan, s, t, q, pos);
    }
    forall i | 0 <= i < |plan| ensures Skipped(plan, s.stage, i) <==> Skipped(plan, t.stage, i) {
      SameSkipped(plan, s.stage, t.stage, i);
    }
    SameCount(plan, s.stage, t.stage, pos, IsDir);
    SameCount(plan, s.stage, t.stage, pos, IsFifo);
    forall i | 0 <= i < pos ensures Outcome(plan, fs1, t, i) {
      CalmOutcome(plan, fs1, s, t, q, i);
    }
    forall i | pos <= i < |plan| ensures SameAt(fs1, t.fs, plan[i].path) && plan[i].path !in t.stage {
      var p := plan[i].path;
      assert p == q || SameAt(s.fs, t.fs, p);
    }
  }

  lemma CalmDropped(plan: seq<Make>, s: State, t: State, q: Path, pos: nat)
    requires pos <= |plan| && DroppedOk(plan, s.stage, pos) && Calm(plan, s, t, q)
    ensures DroppedOk(plan, t.stage, pos)
  {
  }

  /** A step that makes the next entry `m` of the plan, or opens it. */
  ghost predicate MakesNext(s: State, t: State, m: Make) {
    && Todo(s.stack) == [m] + Todo(t.stack)
    && t.directories == s.directories + One(IsDir(m.entry)) && t.fifos == s.fifos + One(IsFifo(m.entry))
    && (forall p :: p != m.path ==> (p in t.stage <==> p in s.stage) && SameAt(s.fs, t.fs, p))
    && (forall p :: IsDropped(t.stage, p) <==> IsDropped(s.stage, p))
    && IsMade(t, m)
  }

  /** The entry that is made next is the one at the walk's place in the plan. */
  lemma NextPlace(plan: seq<Make>, s: State, t: State, m: Make)
    requires IsSuffix(Todo(s.stack), plan) && Todo(s.stack) == [m] + Todo(t.stack)
    ensures IsSuffix(Todo(t.stack), plan) && Pos(plan, t.stack) == Pos(plan, s.stack) + 1
    ensures plan[Pos(plan, s.stack)] == m
  {
    var pos := Pos(plan, s.stack);
    assert plan[pos..] == [m] + Todo(t.stack);
    assert plan[pos] == plan[pos..][0] && plan[pos + 1..] == plan[pos..][1..];
  }

  lemma MakesOutcome(plan: seq<Make>, fs1: map<Path, Entry>, s: State, t: State, m: Make, i: nat)
    requires MakesNext(s, t, m) && i < |plan| && plan[i].path != m.path && Outcome(plan, fs1, s, i)
    ensures Outcome(plan, fs1, t, i)
  {
    SameSkipped(plan, s.stage, t.stage, i);
    hide Skipped, Todo;
    assert SameAt(s.fs, t.fs, plan[i].path);
  }

  lemma NotSkipped(plan: seq<Make>, stage: map<Path, Stage>, pos: nat)
    requires pos < |plan| && DroppedOk(plan, stage, pos)
    ensures !Skipped(plan, stage, pos)
  {
  }

  lemma MakesKeeps(plan: seq<Make>, fs1: map<Path, Entry>, s: State, t: State, m: Make)
    requires DistinctPaths(plan) && IsSuffix(Todo(s.stack), plan) && StopInv(plan, fs1, s) && MakesNext(s, t, m)
    ensures IsSuffix(Todo(t.stack), plan) && StopInv(plan, fs1, t)
  {
    hide Todo, Outcome, Skipped, IsMade, DroppedOk;
    var pos := Pos(plan, s.stack);
    NextPlace(plan, s, t, m);
    MakesDropped(plan, s, t, m, pos);
    forall i | 0 <= i < |plan| ensures Skipped(plan, s.stage, i) <==> Skipped(plan, t.stage, i) {
      SameSkipped(plan, s.stage, t.stage, i);
    }
    SameCount(plan, s.stage, t.stage, pos, IsDir);
    SameCount(plan, s.stage, t.stage, pos, IsFifo);
    NotSkipped(plan, t.stage, pos);
    forall i | 0 <= i <= pos ensures Outcome(plan, fs1, t, i) {
      if i < pos {
        MakesOutcome(plan, fs1, s, t, m, i);
      } else {
        MadeOutcome(plan, fs1, t, i);
      }
    }
  }

  lemma MadeOutcome(plan: seq<Make>, fs1: map<Path, Entry>, t: State, i: nat)
    requires i < |plan| && !Skipped(plan, t.stage, i) && IsMade(t, plan[i])
    ensures Outcome(plan, fs1, t, i)
  {
  }

  lemma MakesDropped(plan: seq<Make>, s: State, t: State, m: Make, pos: nat)
    requires pos < |plan| && DroppedOk(plan, s.stage, pos) && MakesNext(s, t, m)
    ensures DroppedOk(plan, t.stage, pos) && DroppedOk(plan, t.stage, pos + 1)
  {
  }

  // Giving up.

  /** Giving up `f` passes over what is still to be made below its directory, and nothing else. */
  lemma GivesUpItsDirectory(s: State, f: Make)
    requires StackOk(s.stack) && s.stack != [] && Parent(f.path) == s.stack[0].path
    ensures Todo(s.stack) == Plan(s.stack[0].path, s.stack[0].rest) + Todo(s.stack[1..])
    ensures forall m :: m in Plan(s.stack[0].path, s.stack[0].rest) ==> Under(Parent(f.path), m.path)
    ensures forall m :: m in Todo(s.stack[1..]) ==> !Under(Parent(f.path), m.path)
  {
    PlanIsBelow(s.stack[0].path, s.stack[0].rest);
    OutsideOf(s.stack[0].path, s.stack[1..]);
  }

  /** A step that gives up `f`: `skipped` is what it passes over. */
  ghost predicate GivesUp(s: State, t: State, f: Make, skipped: seq<Make>) {
    && Todo(s.stack) == skipped + Todo(t.stack)
    && (forall m :: m in skipped ==> Under(Parent(f.path), m.path))
    && (forall m :: m in Todo(t.stack) ==> !Under(Parent(f.path), m.path))
    && t.stage == s.stage[f.path := Dropped] && t.fs == s.fs
    && t.directories == s.directories && t.fifos == s.fifos
  }

  lemma PlaceAfter(plan: seq<Make>, s: State, t: State, f: Make, skipped: seq<Make>)
    requires IsSuffix(Todo(s.stack), plan) && GivesUp(s, t, f, skipped)
    ensures IsSuffix(Todo(t.stack), plan) && Pos(plan, t.stack) == Pos(plan, s.stack) + |skipped|
    ensures forall i :: Pos(plan, s.stack) <= i < Pos(plan, t.stack) ==> Under(Parent(f.path), plan[i].path)
    ensures forall i :: Pos(plan, t.stack) <= i < |plan| ==> !Under(Parent(f.path), plan[i].path)
  {
    var pos, todo := Pos(plan, s.stack), Todo(t.stack);
    assert plan[pos..] == skipped + todo;
    assert plan[pos + |skipped|..] == plan[pos..][|skipped|..] == todo;
    forall i | pos <= i < pos + |skipped| ensures Under(Parent(f.path), plan[i].path) {
      assert plan[i] == plan[pos..][i - pos] == skipped[i - pos];
    }
    forall i | pos + |skipped| <= i < |plan| ensures !Under(Parent(f.path), plan[i].path) {
      assert plan[i] == plan[pos + |skipped|..][i - pos - |skipped|];
    }
  }

  lemma GivesUpOutcome(plan: seq<Make>, fs1: map<Path, Entry>, s: State, t: State, f: Make, pos: nat, i: nat)
    requires DistinctPaths(plan) && 0 < pos <= |plan| && plan[pos - 1] == f && i < pos && f.path in s.stage
    requires t.stage == s.stage[f.path := Dropped] && t.fs == s.fs && Outcome(plan, fs1, s, i)
    ensures Skipped(plan, s.stage, i) <==> Skipped(plan, t.stage, i)
    ensures Outcome(plan, fs1, t, i)
  {
    forall j | 0 <= j < i ensures IsDropped(s.stage, plan[j].path) <==> IsDropped(t.stage, plan[j].path) {
      assert plan[j].path != plan[pos - 1].path;
    }
    SameSkipped(plan, s.stage, t.stage, i);
  }

  lemma NowSkipped(plan: seq<Make>, stage: map<Path, Stage>, pos: nat, i: nat)
    requires 0 < pos <= i < |plan| && IsDropped(stage, plan[pos - 1].path)
    requires Under(Parent(plan[pos - 1].path), plan[i].path)
    ensures Skipped(plan, stage, i)
  {
  }

  lemma GivesUpKeeps(plan: seq<Make>, fs1: map<Path, Entry>, s: State, t: State, f: Make, skipped: seq<Make>)
    requires DistinctPaths(plan) && IsSuffix(Todo(s.stack), plan) && StopInv(plan, fs1, s) && GivesUp(s, t, f, skipped)
    requires f.path in s.stage && Pos(plan, s.stack) > 0 && plan[Pos(plan, s.stack) - 1] == f
    ensures IsSuffix(Todo(t.stack), plan) && StopInv(plan, fs1, t)
  {
    var pos := Pos(plan, s.stack);
    PlaceAfter(plan, s, t, f, skipped);
    var pos' := Pos(plan, t.stack);
    hide Todo, Outcome, Skipped, Under, Parent, IsMade;
    forall i | 0 <= i < pos
      ensures (Skipped(plan, s.stage, i) <==> Skipped(plan, t.stage, i)) && Outcome(plan, fs1, t, i)
    {
      GivesUpOutcome(plan, fs1, s, t, f, pos, i);
    }
    forall i | pos <= i < pos' ensures Skipped(plan, t.stage, i) && Outcome(plan, fs1, t, i) {
      NowSkipped(plan, t.stage, pos, i);
      SkippedOutcome(plan, fs1, s, t, f, pos, i);
    }
    SameCount(plan, s.stage, t.stage, pos, IsDir);
    SameCount(plan, s.stage, t.stage, pos, IsFifo);
    SkippedCount(plan, t.stage, pos, pos', IsDir);
    SkippedCount(plan, t.stage, pos, pos', IsFifo);
  }

  lemma SkippedOutcome(plan: seq<Make>, fs1: map<Path, Entry>, s: State, t: State, f: Make, pos: nat, i: nat)
    requires DistinctPaths(plan) && 0 < pos <= i < |plan| && plan[pos - 1] == f && Skipped(plan, t.stage, i)
    requires plan[i].path !in s.stage && SameAt(fs1, s.fs, plan[i].path)
    requires t.stage == s.stage[f.path := Dropped] && t.fs == s.fs
    ensures Outcome(plan, fs1, t, i)
  {
    assert plan[pos - 1].path != plan[i].path;
  }

  // The walk.

  lemma WalkKeepsStop(plan: seq<Make>, fs1: map<Path, Entry>, s: State)
    requires Inv(plan, fs1, s) && StopAll(plan, fs1, s) && s.manager.Walking?
    ensures StopAll(plan, fs1, Walk(s))
  {
    hide SyncInv, OrderInv, StageInv, ContentInv, DroppedInv, TreeInv, CountInv, StopInv, StackOk, Todo, Plan;
    var t, make := Walk(s), NextMake(s);
    WalkIs(s);
    WalkKeepsStack(s);
    if make == [] {
      StillIsCalm(plan, s, t);
      CalmKeeps(plan, fs1, s, t, []);
    } else {
      NextIsNew(plan, fs1, s, make[0]);
      WalkMakesNext(s, make[0]);
      MakesKeeps(plan, fs1, s, t, make[0]);
      NextPlace(plan, s, t, make[0]);
    }
  }

  lemma StillIsCalm(plan: seq<Make>, s: State, t: State)
    requires Still(s, t) && t.directories == s.directories && t.fifos == s.fifos
    ensures Calm(plan, s, t, [])
  {
  }

  /** What is made next has not been opened. */
  lemma NextIsNew(plan: seq<Make>, fs1: map<Path, Entry>, s: State, m: Make)
    requires Inv(plan, fs1, s) && s.manager.Walking? && NextMake(s) == [m]
    ensures m.path !in s.stage
  {
    hide SyncInv, OrderInv, ItemsInv, HolderInv, ContentInv, DroppedInv, TreeInv, CountInv, Todo;
    WalkTodo(s);
    assert m == Todo(s.stack)[0];
    assert m in Todo(s.stack);
  }

  lemma WalkMakesNext(s: State, m: Make)
    requires s.manager.Walking? && NextMake(s) == [m] && m.path !in s.stage
    ensures MakesNext(s, Walk(s), m)
  {
    hide Todo, Plan;
    WalkTodo(s);
    match s.stack[0].rest[0]
    case Dir(_, _) =>
    case File(_, _) =>
    case Fifo(_) =>
    case Other(_) =>
  }

  // The manager at the buffer, and everybody else.

  lemma GiveUpKeepsStop(plan: seq<Make>, fs1: map<Path, Entry>, s: State, f: Make, wake: nat)
    requires StopAll(plan, fs1, s) && s.manager == Adding(f) && s.stack != [] && s.done && f.path in s.stage
    ensures StopAll(plan, fs1, Add(s, f, wake))
  {
    hide StopInv, Todo, Plan, WellFormed, LeftBehind;
    var t := Add(s, f, wake);
    assert f in Pending(s.manager);
    GivesUpItsDirectory(s, f);
    GivesUpKeeps(plan, fs1, s, t, f, Plan(s.stack[0].path, s.stack[0].rest));
    assert StackOk(s.stack[1..]);
  }

  lemma PendingIsOpened(plan: seq<Make>, fs1: map<Path, Entry>, s: State, f: Make)
    requires Inv(plan, fs1, s) && s.manager == Adding(f)
    ensures f.path in s.stage
  {
    hide SyncInv, OrderInv, HolderInv, CloseInv, ContentInv, DroppedInv, TreeInv, CountInv;
    assert f in Pending(s.manager) && IsAt(s.stage, f, Held);
  }

  /** A step that leaves the walk where it is and what it made. */
  lemma CalmKeepsAll(plan: seq<Make>, fs1: map<Path, Entry>, s: State, t: State, q: Path)
    requires StopAll(plan, fs1, s) && Calm(plan, s, t, q) && t.stack == s.stack
    requires Pending(t.manager) == Pending(s.manager) || Pending(t.manager) == []
    ensures StopAll(plan, fs1, t)
  {
    hide StopInv, Calm, Todo, StackOk;
    CalmKeeps(plan, fs1, s, t, q);
  }

  lemma AddsIsCalm(plan: seq<Make>, s: State, t: State, f: Make)
    requires Adds(s, t, f) && IsAt(s.stage, f, Held)
    ensures Calm(plan, s, t, [])
  {
  }

  lemma TakesIsCalm(plan: seq<Make>, s: State, t: State, w: nat, f: Make)
    requires Takes(s, t, w, f) && IsAt(s.stage, f, Queued)
    ensures Calm(plan, s, t, [])
  {
  }

  lemma ClosesIsCalm(plan: seq<Make>, s: State, t: State, w: nat, f: Make)
    requires Closes(s, t, w, f) && IsAt(s.stage, f, With(w))
    ensures Calm(plan, s, t, [])
  {
  }

  lemma SchedulesIsCalm(plan: seq<Make>, s: State, t: State)
    requires t.stack == s.stack && t.stage == s.stage && t.fs == s.fs
    requires t.directories == s.directories && t.fifos == s.fifos
    ensures Calm(plan, s, t, [])
  {
  }

  lemma WritesIsCalm(plan: seq<Make>, s: State, t: State, w: nat, f: Make, off: nat, n: nat)
    requires DistinctPaths(plan) && Writes(s, t, w, f, off, n) && f in plan && f.path in s.stage && f.entry.FileEntry?
    ensures Calm(plan, s, t, f.path)
  {
    var k :| 0 <= k < |plan| && plan[k] == f;
    forall i | 0 <= i < |plan| && plan[i].path == f.path ensures plan[i].entry.FileEntry? {
      assert i == k;
    }
  }

  lemma AddKeepsStop(plan: seq<Make>, fs1: map<Path, Entry>, s: State, f: Make, wake: nat)
    requires Inv(plan, fs1, s) && StopAll(plan, fs1, s) && s.manager == Adding(f) && s.stack != []
    ensures StopAll(plan, fs1, Add(s, f, wake))
  {
    hide SyncInv, OrderInv, HolderInv, CloseInv, ContentInv, DroppedInv, TreeInv, CountInv, StopAll, Calm;
    var t := Add(s, f, wake);
    assert f in Pending(s.manager) && IsAt(s.stage, f, Held);
    AddIs(plan, s, f, wake);
    if s.done {
      GiveUpKeepsStop(plan, fs1, s, f, wake);
    } else if |s.buffer| >= s.size {
      SchedulesIsCalm(plan, s, t);
      CalmKeepsAll(plan, fs1, s, t, []);
    } else {
      AddsIsCalm(plan, s, t, f);
      CalmKeepsAll(plan, fs1, s, t, []);
    }
  }

  lemma FetchKeepsStop(plan: seq<Make>, fs1: map<Path, Entry>, s: State, w: nat)
    requires Inv(plan, fs1, s) && StopAll(plan, fs1, s) && w < |s.workers| && s.workers[w].Fetching?
    ensures StopAll(plan, fs1, Fetch(s, w))
  {
    hide SyncInv, OrderInv, HolderInv, CloseInv, ContentInv, DroppedInv, TreeInv, CountInv, StopAll, Calm;
    var t := Fetch(s, w);
    FetchIs(s, w);
    if s.buffer == [] {
      SchedulesIsCalm(plan, s, t);
    } else {
      assert s.buffer[0] in s.buffer;
      TakesIsCalm(plan, s, t, w, s.buffer[0]);
    }
    CalmKeepsAll(plan, fs1, s, t, []);
  }

  lemma CopyKeepsStop(plan: seq<Make>, fs1: map<Path, Entry>, s: State, w: nat, n: nat, f: Make, off: nat)
    requires Inv(plan, fs1, s) && StopAll(plan, fs1, s) && Enabled(s, Work(w, n)) && s.workers[w] == Copying(f, off)
    ensures StopAll(plan, fs1, Works(s, w, n))
  {
    hide SyncInv, HolderInv, CloseInv, ContentInv, DroppedInv, TreeInv, CountInv, StopAll, Calm, Todo;
    var t := Works(s, w, n);
    CopyIs(s, w, n, f, off);
    assert Load(s.workers[w]) == Some(f) && f in s.added && IsAt(s.stage, f, With(w)) && f.entry.FileEntry?;
    if off < Size(f) {
      FilesAreOfPlan(plan);
      assert f in Files(plan);
      WritesIsCalm(plan, s, t, w, f, off, n);
      CalmKeepsAll(plan, fs1, s, t, f.path);
    } else {
      ClosesIsCalm(plan, s, t, w, f);
      CalmKeepsAll(plan, fs1, s, t, []);
    }
  }

  lemma StepKeepsStop(plan: seq<Make>, fs1: map<Path, Entry>, s: State, a: Action)
    requires Inv(plan, fs1, s) && StopAll(plan, fs1, s) && Enabled(s, a)
    ensures StopAll(plan, fs1, Do(s, a))
  {
    hide Inv, StopAll, Calm;
    match a
    case Manage(wake) =>
      if s.manager.Walking? {
        WalkKeepsStop(plan, fs1, s);
      } else if s.manager.Adding? {
        AddKeepsStop(plan, fs1, s, s.manager.f, wake);
      } else {
        EndIs(s, wake);
        SchedulesIsCalm(plan, s, Do(s, a));
        CalmKeepsAll(plan, fs1, s, Do(s, a), []);
      }
    case Work(w, n) =>
      if s.workers[w].Fetching? {
        FetchKeepsStop(plan, fs1, s, w);
      } else if s.workers[w].Copying? {
        CopyKeepsStop(plan, fs1, s, w, n, s.workers[w].f, s.workers[w].off);
      } else {
        SchedulesIsCalm(plan, s, Do(s, a));
        CalmKeepsAll(plan, fs1, s, Do(s, a), []);
      }
    case Stop => StopIsCalm(plan, fs1, s, a);
    case SpuriousManager => StopIsCalm(plan, fs1, s, a);
    case SpuriousWorker(_) => StopIsCalm(plan, fs1, s, a);
  }

  lemma StopIsCalm(plan: seq<Make>, fs1: map<Path, Entry>, s: State, a: Action)
    requires StopAll(plan, fs1, s) && Enabled(s, a) && (a.Stop? || a.SpuriousManager? || a.SpuriousWorker?)
    ensures StopAll(plan, fs1, Do(s, a))
  {
    hide StopAll, Calm;
    SchedulesIsCalm(plan, s, Do(s, a));
    CalmKeepsAll(plan, fs1, s, Do(s, a), []);
  }

  // --------------------------------------------------------------------------- theorems

  lemma InitStop(size: nat, workers: nat, tree: seq<Node>, fs0: map<Path, Entry>)
    requires WellFormed(tree)
    ensures StopAll(Plan([], tree), fs0[[] := DirEntry], Init(size, workers, tree, fs0))
  {
    PlanHasDistinctPaths([], tree);
    InitTodo(tree);
    hide Plan, Todo;
    assert [Frame([], tree)][1..] == [];
    assert StackOk([Frame([], tree)]);
  }

  ghost predicate Both(plan: seq<Make>, fs1: map<Path, Entry>, s: State) {
    Inv(plan, fs1, s) && StopAll(plan, fs1, s)
  }

  lemma ReachableStop(size: nat, workers: nat, tree: seq<Node>, fs0: map<Path, Entry>, s: State)
    requires Reachable(size, workers, tree, fs0, s)
    ensures Inv(Plan([], tree), fs0[[] := DirEntry], s) && StopAll(Plan([], tree), fs0[[] := DirEntry], s)
  {
    hide Inv, StopAll;
    var plan, fs1 := Plan([], tree), fs0[[] := DirEntry];
    var inv := (t: State) => Both(plan, fs1, t);
    InitInv(size, workers, tree, fs0);
    InitStop(size, workers, tree, fs0);
    forall t, a | inv(t) && Step(t, a).Some?
      ensures inv(Step(t, a).value)
    {
      StepKeepsInv(plan, fs1, t, a);
      StepKeepsStop(plan, fs1, t, a);
    }
    ReachesKeeps(Step, inv, Init(size, workers, tree, fs0), s);
  }

  /** In any run, a step that gives up a file takes what lies below the directory of that file off
      what is to do, and leaves the rest. */
  lemma GiveUpLeavesTheRest(
      size: nat, workers: nat, tree: seq<Node>, fs0: map<Path, Entry>, s: State, f: Make, wake: nat)
    requires Reachable(size, workers, tree, fs0, s)
    requires Enabled(s, Manage(wake)) && s.manager == Adding(f) && s.done
    ensures var t := Do(s, Manage(wake));
            exists skipped ::
              && Todo(s.stack) == skipped + Todo(t.stack)
              && (forall m :: m in skipped ==> Under(Parent(f.path), m.path))
              && (forall m :: m in Todo(t.stack) ==> !Under(Parent(f.path), m.path))
  {
    hide Inv, StopInv, Todo, Plan;
    ReachableStop(size, workers, tree, fs0, s);
    assert f in Pending(s.manager);
    GivesUpItsDirectory(s, f);
    assert Do(s, Manage(wake)).stack == s.stack[1..];
    var skipped := Plan(s.stack[0].path, s.stack[0].rest);
    assert Todo(s.stack) == skipped + Todo(s.stack[1..]);
  }

  /** When the barrier opens, with or without a stop: an entry of the tree was passed over exactly
      if a file had been given up before it in one of the directories that it lies in, and then its
      place in the destination is as it was; all other entries were made.  The two counters count
      the directories and FIFOs that were made. */
  lemma StopIsOrderly(size: nat, workers: nat, tree: seq<Node>, fs0: map<Path, Entry>, s: State)
    requires Reachable(size, workers, tree, fs0, s) && BarrierOpen(s)
    ensures var plan := Plan([], tree);
            && (forall i :: 0 <= i < |plan| ==>
                  if Skipped(plan, s.stage, i)
                  then plan[i].path !in s.stage && SameAt(fs0[[] := DirEntry], s.fs, plan[i].path)
                  else IsMade(s, plan[i]))
            && s.directories == MadeCount(plan, s.stage, |plan|, IsDir)
            && s.fifos == MadeCount(plan, s.stage, |plan|, IsFifo)
  {
    ReachableStop(size, workers, tree, fs0, s);
    hide OrderInv, StageInv, ContentInv, DroppedInv, TreeInv, CountInv, StackOk, PendingOk, DroppedOk, Skipped, IsMade;
    var plan, fs1 := Plan([], tree), fs0[[] := DirEntry];
    assert s.stack == [];
    forall i | 0 <= i < |plan|
      ensures if Skipped(plan, s.stage, i) then plan[i].path !in s.stage && SameAt(fs1, s.fs, plan[i].path)
              else IsMade(s, plan[i])
    {
      assert Outcome(plan, fs1, s, i);
    }
  }
}
