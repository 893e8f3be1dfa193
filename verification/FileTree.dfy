// Directory trees, and the order in which traverse_directory makes their copies
// (Homework5/200104004104_main.c).

module FileTree {
  import opened Runs

  type Bytes = seq<bv8>

  /** A path relative to the source directory, or to the destination directory. */
  type Path = seq<string>

  /** What `readdir` and `stat` report: `Other` is neither a directory, a regular file nor a FIFO. */
  datatype Node =
    | Dir(name: string, entries: seq<Node>)
    | File(name: string, content: Bytes)
    | Fifo(name: string)
    | Other(name: string)

  /** What stands at a path of the destination. */
  datatype Entry = DirEntry | FileEntry(content: Bytes) | FifoEntry

  /** One thing that the traversal makes. */
  datatype Make = Make(path: Path, entry: Entry)

  /** What the traversal makes for a node of the directory at `path`, in its order. */
  function PlanOf(path: Path, n: Node): seq<Make>
    decreases n
  {
    match n
    case Dir(name, entries) => [Make(path + [name], DirEntry)] + Plan(path + [name], entries)
    case File(name, content) => [Make(path + [name], FileEntry(content))]
    case Fifo(name) => [Make(path + [name], FifoEntry)]
    case Other(_) => []
  }

  function Plan(path: Path, nodes: seq<Node>): seq<Make>
    decreases nodes
  {
    if nodes == [] then [] else PlanOf(path, nodes[0]) + Plan(path, nodes[1..])
  }

  /** No two entries of a directory have the same name. */
  ghost predicate WellFormed(nodes: seq<Node>)
    decreases nodes
  {
    nodes != [] ==>
      && (forall j :: 1 <= j < |nodes| ==> nodes[j].name != nodes[0].name)
      && (nodes[0].Dir? ==> WellFormed(nodes[0].entries))
      && WellFormed(nodes[1..])
  }

  /** What a directory with entries `nodes` has at the relative path `p`: the definition of a
      mirror that does not mention the traversal. */
  function Lookup(nodes: seq<Node>, p: Path): Option<Entry>
    decreases |p|, |nodes|
  {
    if p == [] || nodes == [] then None
    else if nodes[0].name != p[0] then Lookup(nodes[1..], p)
    else
      match nodes[0]
      case Dir(_, entries) => if |p| == 1 then Some(DirEntry) else Lookup(entries, p[1..])
      case File(_, content) => if |p| == 1 then Some(FileEntry(content)) else None
      case Fifo(_) => if |p| == 1 then Some(FifoEntry) else None
      case Other(_) => None
  }

  ghost predicate DistinctPaths(plan: seq<Make>) {
    forall i, j :: 0 <= i < j < |plan| ==> plan[i].path != plan[j].path
  }

  /** `m` lies below `path`, in the entry called `name`. */
  predicate Below(path: Path, name: string, m: Make) {
    |path| < |m.path| && m.path[..|path|] == path && m.path[|path|] == name
  }

  lemma {:induction false} PlanOfIsBelow(path: Path, n: Node)
    ensures forall m :: m in PlanOf(path, n) ==> Below(path, n.name, m)
    decreases n
  {
    if n.Dir? {
      PlanIsBelow(path + [n.name], n.entries);
      forall m | m in Plan(path + [n.name], n.entries)
        ensures Below(path, n.name, m)
      {
        assert m.path[..|path|] == m.path[..|path| + 1][..|path|];
        assert m.path[|path|] == m.path[..|path| + 1][|path|];
      }
    }
  }

  lemma {:induction false} PlanIsBelow(path: Path, nodes: seq<Node>)
    ensures forall m :: m in Plan(path, nodes) ==>
              |path| < |m.path| && m.path[..|path|] == path
              && exists i :: 0 <= i < |nodes| && Below(path, nodes[i].name, m)
    decreases nodes
  {
    if nodes != [] {
      PlanOfIsBelow(path, nodes[0]);
      PlanIsBelow(path, nodes[1..]);
      forall m | m in Plan(path, nodes[1..])
        ensures exists i :: 0 <= i < |nodes| && Below(path, nodes[i].name, m)
      {
        var i :| 0 <= i < |nodes[1..]| && Below(path, nodes[1..][i].name, m);
        assert Below(path, nodes[i + 1].name, m);
      }
    }
  }

  /** The traversal never makes two things at one path. */
  lemma {:induction false} PlanHasDistinctPaths(path: Path, nodes: seq<Node>)
    requires WellFormed(nodes)
    ensures DistinctPaths(Plan(path, nodes))
    decreases nodes
  {
    if nodes != [] {
      var head, tail := PlanOf(path, nodes[0]), Plan(path, nodes[1..]);
      if nodes[0].Dir? {
        PlanHasDistinctPaths(path + [nodes[0].name], nodes[0].entries);
        PlanIsBelow(path + [nodes[0].name], nodes[0].entries);
      }
      assert WellFormed(nodes[1..]);
      PlanHasDistinctPaths(path, nodes[1..]);
      PlanOfIsBelow(path, nodes[0]);
      PlanIsBelow(path, nodes[1..]);
      var all := head + tail;
      forall i, j | 0 <= i < j < |all|
        ensures all[i].path != all[j].path
      {
        if i < |head| <= j {
          var m := tail[j - |head|];
          assert m in tail && head[i] in head;
          var k :| 0 <= k < |nodes[1..]| && Below(path, nodes[1..][k].name, m);
          assert nodes[1..][k] == nodes[k + 1];
        }
      }
    }
  }

  /** The traversal makes exactly what the tree has, each at its own path. */
  lemma {:induction false} PlanIsLookup(path: Path, nodes: seq<Node>, p: Path, e: Entry)
    requires WellFormed(nodes)
    ensures Make(path + p, e) in Plan(path, nodes) <==> Lookup(nodes, p) == Some(e)
    decreases |p|, |nodes|
  {
    var m := Make(path + p, e);
    if p == [] {
      PlanIsBelow(path, nodes);
    } else if nodes != [] {
      var n, tail := nodes[0], Plan(path, nodes[1..]);
      assert WellFormed(nodes[1..]);
      assert m.path[..|path|] == path && m.path[|path|] == p[0];
      if n.name != p[0] {
        PlanOfIsBelow(path, n);
        PlanIsLookup(path, nodes[1..], p, e);
      } else {
        PlanIsBelow(path, nodes[1..]);
        assert m !in tail;
        assert |p| > 1 ==> |path + p| != |path + [n.name]|;
        assert |p| == 1 ==> path + p == path + [n.name];
        if n.Dir? {
          assert path + p == (path + [n.name]) + p[1..];
          PlanIsLookup(path + [n.name], n.entries, p[1..], e);
          PlanIsBelow(path + [n.name], n.entries);
        }
      }
    }
  }

  /** The traversal takes the entries of a directory in their order ... */
  lemma {:induction false} PlanConcat(path: Path, xs: seq<Node>, ys: seq<Node>)
    ensures Plan(path, xs + ys) == Plan(path, xs) + Plan(path, ys)
    decreases |xs|
  {
    if xs == [] {
      assert xs + ys == ys;
    } else {
      assert (xs + ys)[0] == xs[0] && (xs + ys)[1..] == xs[1..] + ys;
      PlanConcat(path, xs[1..], ys);
    }
  }

  predicate HasDirBefore(plan: seq<Make>, i: nat, dir: Path)
    requires i <= |plan|
  {
    exists j :: 0 <= j < i && plan[j] == Make(dir, DirEntry)
  }

  /** ... and makes a directory before anything in it. */
  lemma {:induction false} DirectoriesComeFirst(path: Path, nodes: seq<Node>, i: nat)
    requires i < |Plan(path, nodes)|
    ensures var p := Plan(path, nodes)[i].path;
            p != [] && (p[..|p| - 1] == path || HasDirBefore(Plan(path, nodes), i, p[..|p| - 1]))
    decreases nodes
  {
    var head, tail := PlanOf(path, nodes[0]), Plan(path, nodes[1..]);
    if i < |head| {
      if nodes[0].Dir? && i > 0 {
        var dir := path + [nodes[0].name];
        DirectoriesComeFirst(dir, nodes[0].entries, i - 1);
        var p := head[i].path;
        assert head[0] == Make(dir, DirEntry);
        if p[..|p| - 1] != dir {
          var j :| 0 <= j < i - 1 && Plan(dir, nodes[0].entries)[j] == Make(p[..|p| - 1], DirEntry);
          assert (head + tail)[j + 1] == Make(p[..|p| - 1], DirEntry);
        } else {
          assert (head + tail)[0] == Make(dir, DirEntry);
        }
      }
    } else {
      DirectoriesComeFirst(path, nodes[1..], i - |head|);
      var p := tail[i - |head|].path;
      if p[..|p| - 1] != path {
        var j :| 0 <= j < i - |head| && tail[j] == Make(p[..|p| - 1], DirEntry);
        assert (head + tail)[j + |head|] == Make(p[..|p| - 1], DirEntry);
      }
    }
  }

  /** The regular files of a plan, in its order. */
  function Files(plan: seq<Make>): seq<Make>
    decreases |plan|
  {
    if plan == [] then []
    else (if plan[0].entry.FileEntry? then [plan[0]] else []) + Files(plan[1..])
  }

  /** How many things of a plan satisfy `k`. */
  function CountOf(plan: seq<Make>, k: Entry -> bool): nat
    decreases |plan|
  {
    if plan == [] then 0 else (if k(plan[0].entry) then 1 else 0) + CountOf(plan[1..], k)
  }

  function Size(f: Make): nat {
    if f.entry.FileEntry? then |f.entry.content| else 0
  }

  /** The bytes of a list of files. */
  function TotalSize(files: seq<Make>): nat
    decreases |files|
  {
    if files == [] then 0 else Size(files[0]) + TotalSize(files[1..])
  }

  lemma {:induction false} TotalSizeConcat(xs: seq<Make>, ys: seq<Make>)
    ensures TotalSize(xs + ys) == TotalSize(xs) + TotalSize(ys)
    decreases |xs|
  {
    if xs == [] {
      assert xs + ys == ys;
    } else {
      assert (xs + ys)[1..] == xs[1..] + ys;
      TotalSizeConcat(xs[1..], ys);
    }
  }

  lemma {:induction false} FilesAreOfPlan(plan: seq<Make>)
    ensures forall m :: m in Files(plan) <==> m in plan && m.entry.FileEntry?
    ensures DistinctPaths(plan) ==> DistinctPaths(Files(plan))
    decreases |plan|
  {
    if plan != [] {
      FilesAreOfPlan(plan[1..]);
      assert forall m :: m in plan <==> m == plan[0] || m in plan[1..];
      if DistinctPaths(plan) {
        assert forall i, j :: 0 <= i < j < |plan[1..]| ==> plan[1..][i] == plan[i + 1] && plan[1..][j] == plan[j + 1];
        assert forall m :: m in plan[1..] ==> m.path != plan[0].path;
      }
    }
  }
}
