// The copier of Homework5/200104004104_main.c as it changes its globals: the ring buffer, the
// critical sections on it, and the loop that copies one file.

module CopierInPlace {
  import opened Copier
  import opened FileTree
  import opened RingPlaces

  /** The global `buffer`. */
  class Buffer {
    const data: array<Make>
    var count: nat
    var head: nat
    var tail: nat

    ghost predicate Valid()
      reads this
    {
      && count <= data.Length && tail == Place(head, count, data.Length)
      && (if data.Length == 0 then head == tail == 0 else head < data.Length)
    }

    ghost function Contents(): (items: seq<Make>)
      reads this, data
      requires Valid()
      ensures |items| == count
    {
      seq(count, i requires 0 <= i < count reads this, data requires Valid() => data[Place(head, i, data.Length)])
    }

    /** `initialize_buffer`. */
    constructor (size: nat, blank: Make)
      ensures Valid() && Contents() == [] && data.Length == size && fresh(data)
    {
      data := new Make[size](_ => blank);
      count, head, tail := 0, 0, 0;
    }

    predicate IsEmpty()
      reads this
    {
      count == 0
    }

    predicate IsFull()
      reads this
    {
      count == data.Length
    }

    /** `buffer_add`. */
    method Add(f: Make)
      requires Valid() && !IsFull()
      modifies this, data
      ensures Valid() && Contents() == old(Contents()) + [f]
    {
      data[tail] := f;
      NextPlace(tail, data.Length);
      tail := (tail + 1) % data.Length;
      count := count + 1;
    }

    /** `buffer_get`. */
    method Get() returns (f: Make)
      requires Valid() && !IsEmpty()
      modifies this
      ensures Valid() && f == old(Contents())[0] && Contents() == old(Contents())[1..]
    {
      f := data[head];
      NextPlace(head, data.Length);
      head := (head + 1) % data.Length;
      count := count - 1;
    }
  }

  /** What `read` may return with `off` bytes read: 0 at the end of the file only. */
  predicate ReadReturns(content: Bytes, off: nat, nread: nat) {
    if off >= |content| then nread == 0 else 1 <= nread <= BUFSIZE && off + nread <= |content|
  }

  lemma ReadReturnsSomething(content: Bytes, off: nat)
    ensures exists nread: nat :: ReadReturns(content, off, nread)
  {
    assert ReadReturns(content, off, if off >= |content| then 0 else 1);
  }

  /** `copy_file_contents`: whatever each `read` returns, the destination, empty when it was
      opened, ends up with the whole file, and every byte is counted once. */
  method CopyFileContents(content: Bytes, totalBytes: nat) returns (written: Bytes, total: nat)
    ensures written == content && total == totalBytes + |content|
  {
    written, total := [], totalBytes;
    ReadReturnsSomething(content, 0);
    var nread: nat :| ReadReturns(content, 0, nread);
    while nread > 0
      invariant |written| <= |content| && written == content[..|written|]
      invariant total == totalBytes + |written|
      invariant ReadReturns(content, |written|, nread)
      decreases |content| - |written|
    {
      written := written + content[|written|..|written| + nread];
      total := total + nread;
      ReadReturnsSomething(content, |written|);
      nread :| ReadReturns(content, |written|, nread);
    }
  }

  /** The globals of the program, its threads, and the destination. */
  class Program {
    const buffer: Buffer
    var isDone: bool
    var numFilesCopied: nat
    var numDirectories: nat
    var numFifoFiles: nat
    var totalBytesCopied: nat
    var managerAt: Manager
    var frames: seq<Frame>
    var workersAt: seq<Worker>
    var disk: map<Path, Entry>
    ghost var wasStopped: bool
    ghost var allAdded: seq<Make>
    ghost var stages: map<Path, Stage>
    ghost var closings: multiset<Path>

    ghost predicate Valid()
      reads this, buffer
    {
      buffer.Valid()
    }

    ghost function View(): State
      reads this, buffer, buffer.data
      requires Valid()
    {
      State(buffer.data.Length, buffer.Contents(), isDone,
            numFilesCopied, numDirectories, numFifoFiles, totalBytesCopied,
            managerAt, frames, workersAt, disk, wasStopped, allAdded, stages, closings)
    }

    constructor (size: nat, numWorkers: nat, tree: seq<Node>, before: map<Path, Entry>)
      ensures Valid() && View() == Init(size, numWorkers, tree, before)
    {
      buffer := new Buffer(size, Make([], DirEntry));
      isDone := false;
      numFilesCopied, numDirectories, numFifoFiles, totalBytesCopied := 0, 0, 0, 0;
      managerAt, frames := Walking, [Frame([], tree)];
      workersAt := seq(numWorkers, _ => Fetching);
      disk := before[[] := DirEntry];
      wasStopped, allAdded, stages, closings := false, [], map[], multiset{};
    }

    /** `pthread_cond_signal(&buffer_not_empty)`; the scheduler picks `wake` among the sleepers. */
    method SignalNotEmpty(wake: nat)
      requires Valid()
      modifies this`workersAt
      ensures workersAt == WakeOne(old(workersAt), wake)
    {
      if wake < |workersAt| && workersAt[wake].AwaitItem? {
        workersAt := workersAt[wake := Fetching];
      }
    }

    method BroadcastNotEmpty()
      requires Valid()
      modifies this`workersAt
      ensures workersAt == WakeAll(old(workersAt))
    {
      var i := 0;
      while i < |workersAt|
        invariant i <= |workersAt| == |old(workersAt)|
        invariant forall j :: 0 <= j < i ==> workersAt[j] == Woken(old(workersAt)[j])
        invariant forall j :: i <= j < |workersAt| ==> workersAt[j] == old(workersAt)[j]
      {
        if workersAt[i].AwaitItem? {
          workersAt := workersAt[i := Fetching];
        }
        i := i + 1;
      }
    }

    /** Lines 209-211, to the start of the inner call. */
    method EnterDirectory(target: Path, entries: seq<Node>)
      requires Valid()
      modifies this`numDirectories, this`frames, this`disk
      ensures View() == old(View()).(directories := old(numDirectories) + 1,
                                     stack := [Frame(target, entries)] + old(frames),
                                     fs := old(disk)[target := DirEntry])
    {
      numDirectories := numDirectories + 1;
      frames := [Frame(target, entries)] + frames;
      disk := disk[target := DirEntry];
    }

    /** Lines 212-224. */
    method OpenFile(target: Path, content: Bytes)
      requires Valid()
      modifies this`managerAt, this`stages, this`disk
      ensures View() == old(View()).(manager := Adding(Make(target, FileEntry(content))),
                                     fs := old(disk)[target := FileEntry([])],
                                     stage := old(stages)[target := Held])
    {
      disk := disk[target := FileEntry([])];
      stages := stages[target := Held];
      managerAt := Adding(Make(target, FileEntry(content)));
    }

    /** Lines 239-243. */
    method MakeFifo(target: Path)
      requires Valid()
      modifies this`numFifoFiles, this`disk
      ensures View() == old(View()).(fifos := old(numFifoFiles) + 1, fs := old(disk)[target := FifoEntry])
    {
      numFifoFiles := numFifoFiles + 1;
      disk := disk[target := FifoEntry];
    }

    /** One turn of the loop of `traverse_directory` that is innermost, or its end. */
    method TraverseDirectory()
      requires Valid() && managerAt.Walking?
      modifies this
      ensures Valid() && View() == Walk(old(View()))
    {
      if frames == [] {
        managerAt := Finishing;
      } else if frames[0].rest == [] {
        frames := frames[1..];
      } else {
        var Frame(path, rest) := frames[0];
        var target := path + [rest[0].name];
        frames := [Frame(path, rest[1..])] + frames[1..];
        match rest[0] {
          case Dir(_, entries) => EnterDirectory(target, entries);
          case File(_, content) => OpenFile(target, content);
          case Fifo(_) => MakeFifo(target);
          case Other(_) =>
        }
      }
    }

    /** Lines 231-234: the files that this call of `traverse_directory` would still see are
        passed over. */
    method GiveUp(f: Make)
      requires Valid() && frames != []
      modifies this
      ensures Valid() && View() == old(View()).(manager := Walking, stack := old(frames)[1..],
                                                stage := old(stages)[f.path := Dropped],
                                                closed := old(closings) + multiset{f.path})
    {
      managerAt := Walking;
      frames := frames[1..];
      stages := stages[f.path := Dropped];
      closings := closings + multiset{f.path};
    }

    /** Lines 236-237. */
    method AddFile(f: Make, wake: nat)
      requires Valid() && !buffer.IsFull()
      modifies this, buffer, buffer.data
      ensures Valid() && View() == old(View()).(
                manager := Walking, buffer := old(View()).buffer + [f], added := old(allAdded) + [f],
                stage := old(stages)[f.path := Queued], workers := WakeOne(old(workersAt), wake))
    {
      buffer.Add(f);
      allAdded := allAdded + [f];
      stages := stages[f.path := Queued];
      SignalNotEmpty(wake);
      managerAt := Walking;
    }

    /** Lines 226-238. */
    method AddOrGiveUp(wake: nat)
      requires Valid() && managerAt.Adding? && frames != []
      modifies this, buffer, buffer.data
      ensures Valid() && View() == Add(old(View()), old(managerAt).f, wake)
    {
      var f := managerAt.f;
      if buffer.IsFull() && !isDone {
        managerAt := AwaitRoom(f);
      } else if isDone {
        GiveUp(f);
      } else {
        AddFile(f, wake);
      }
    }

    /** Lines 170-173. */
    method FinishTraversal()
      requires Valid() && managerAt.Finishing?
      modifies this
      ensures Valid() && View() == Manages(old(View()), 0)
    {
      isDone := true;
      BroadcastNotEmpty();
      managerAt := ManagerWaits;
    }

    /** The critical section of `signal_handler`. */
    method RequestStop()
      requires Valid() && !isDone
      modifies this
      ensures Valid() && View() == Do(old(View()), Stop)
    {
      isDone := true;
      wasStopped := true;
      BroadcastNotEmpty();
    }

    /** Lines 253-265, by worker `w`. */
    method FetchItem(w: nat)
      requires Valid() && w < |workersAt| && workersAt[w].Fetching?
      modifies this, buffer
      ensures Valid() && View() == Fetch(old(View()), w)
    {
      if buffer.IsEmpty() && !isDone {
        workersAt := workersAt[w := AwaitItem];
      } else if buffer.IsEmpty() && isDone {
        workersAt := workersAt[w := WorkerWaits];
      } else {
        var f := buffer.Get();
        workersAt := workersAt[w := Copying(f, 0)];
        stages := stages[f.path := With(w)];
        if managerAt.AwaitRoom? {
          managerAt := Adding(managerAt.f);
        }
      }
    }

    /** One turn of the loop of `copy_file_contents` up to its critical section, or its end and
        the closing of the descriptors. */
    method CopyChunk(w: nat, nread: nat)
      requires Valid() && w < |workersAt| && workersAt[w].Copying? && Enabled(View(), Work(w, nread))
      modifies this
      ensures Valid() && View() == Works(old(View()), w, nread)
    {
      var Copying(f, off) := workersAt[w];
      if off < Size(f) {
        disk := Appended(disk, f.path, f.entry.content[off..off + nread]);
        workersAt := workersAt[w := Tallying(f, off + nread, nread)];
      } else {
        closings := closings + multiset{f.path};
        stages := stages[f.path := Copied(w)];
        workersAt := workersAt[w := Counting];
      }
    }

    /** Lines 290-292 and 272-274. */
    method UpdateCounters(w: nat)
      requires Valid() && w < |workersAt| && (workersAt[w].Tallying? || workersAt[w].Counting?)
      modifies this
      ensures Valid() && View() == Works(old(View()), w, 0)
    {
      if workersAt[w].Tallying? {
        totalBytesCopied := totalBytesCopied + workersAt[w].n;
        workersAt := workersAt[w := Copying(workersAt[w].f, workersAt[w].off)];
      } else {
        numFilesCopied := numFilesCopied + 1;
        workersAt := workersAt[w := Fetching];
      }
    }
  }
}
