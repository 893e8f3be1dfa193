// The list of running children of MidtermProject/common.c: an array of pids that is kept
// packed by shifting.

module PidList {

  /** The position of the first occurrence of `pid`, or -1. */
  function IndexOf(pids: seq<int>, pid: int): (i: int)
    ensures if pid in pids
            then 0 <= i < |pids| && pids[i] == pid && pid !in pids[..i]
            else i == -1
  {
    if pids == [] then -1
    else if pids[0] == pid then 0
    else
      var j := IndexOf(pids[1..], pid);
      assert j > 0 ==> pids[..j + 1] == [pids[0]] + pids[1..][..j];
      if j == -1 then -1 else j + 1
  }

  function Removed(pids: seq<int>, pid: int): seq<int> {
    var i := IndexOf(pids, pid);
    if i == -1 then pids else pids[..i] + pids[i + 1..]
  }

  function Added(pids: seq<int>, capacity: int, pid: int): seq<int> {
    if |pids| == capacity then pids else pids + [pid]
  }

  ghost predicate Distinct(pids: seq<int>) {
    forall i, j :: 0 <= i < j < |pids| ==> pids[i] != pids[j]
  }

  function Elements(pids: seq<int>): set<int> {
    set pid | pid in pids
  }

  /** On a list without repetitions, adding and removing are set operations. */
  lemma AddedElements(pids: seq<int>, capacity: int, pid: int)
    requires Distinct(pids) && pid !in pids && |pids| < capacity
    ensures Distinct(Added(pids, capacity, pid))
    ensures Elements(Added(pids, capacity, pid)) == Elements(pids) + {pid}
  {
  }

  /** `r` is `pids` without the element at index `i`. */
  ghost predicate Without(pids: seq<int>, i: nat, r: seq<int>) {
    i < |pids| && |r| == |pids| - 1 && forall k :: 0 <= k < |r| ==> r[k] == pids[if k < i then k else k + 1]
  }

  lemma RemovedIs(pids: seq<int>, pid: int)
    ensures var i := IndexOf(pids, pid);
            if pid in pids then 0 <= i < |pids| && Removed(pids, pid) == pids[..i] + pids[i + 1..]
            else i == -1 && Removed(pids, pid) == pids
  {
  }

  lemma CutOut(pids: seq<int>, i: nat)
    requires i < |pids|
    ensures Without(pids, i, pids[..i] + pids[i + 1..])
  {
  }

  lemma StaysDistinct(pids: seq<int>, i: nat, r: seq<int>)
    requires Distinct(pids) && Without(pids, i, r)
    ensures Distinct(r) && pids[i] !in r
  {
    forall k, l | 0 <= k < l < |r| ensures r[k] != r[l] {
      assert r[k] == pids[if k < i then k else k + 1] && r[l] == pids[if l < i then l else l + 1];
    }
    forall k | 0 <= k < |r| ensures r[k] != pids[i] {
      assert r[k] == pids[if k < i then k else k + 1];
    }
  }

  /** Every pid but the one at index `i` has its place after the removal. */
  lemma KeepsOthers(pids: seq<int>, r: seq<int>, i: nat, x: int)
    requires Without(pids, i, r) && x in pids && x != pids[i]
    ensures x in r
  {
    var k :| 0 <= k < |pids| && pids[k] == x;
    assert r[if k < i then k else k - 1] == x;
  }

  lemma RemovedElements(pids: seq<int>, pid: int)
    requires Distinct(pids)
    ensures Distinct(Removed(pids, pid))
    ensures Elements(Removed(pids, pid)) == Elements(pids) - {pid}
    ensures |Removed(pids, pid)| == if pid in pids then |pids| - 1 else |pids|
  {
    hide IndexOf, Without;
    if pid in pids {
      var i, r := IndexOf(pids, pid), Removed(pids, pid);
      CutOut(pids, i);
      StaysDistinct(pids, i, r);
      forall x | x in Elements(pids) && x != pid ensures x in r {
        KeepsOthers(pids, r, i, x);
      }
    }
  }

  /** A child that is added comes last, and every other one keeps its place. */
  lemma AddedKeepsPlaces(pids: seq<int>, capacity: int, pid: int)
    requires pid !in pids && |pids| != capacity
    ensures var more := Added(pids, capacity, pid);
            IndexOf(more, pid) == |pids| && forall x :: x in pids ==> IndexOf(more, x) == IndexOf(pids, x)
  {
    var more := Added(pids, capacity, pid);
    hide IndexOf;
    assert more[IndexOf(more, pid)] == pid;
    forall x | x in pids ensures IndexOf(more, x) == IndexOf(pids, x) {
      FirstIsUnique(more, x, IndexOf(pids, x));
    }
  }

  lemma FirstIsUnique(pids: seq<int>, x: int, i: nat)
    requires i < |pids| && pids[i] == x && x !in pids[..i]
    ensures IndexOf(pids, x) == i
  {
    hide IndexOf;
    assert x in pids;
    var j := IndexOf(pids, x);
    NotBefore(pids, x, i);
    NotBefore(pids, x, j);
  }

  lemma NotBefore(pids: seq<int>, x: int, n: nat)
    requires n <= |pids| && x !in pids[..n]
    ensures forall k :: 0 <= k < n ==> pids[k] != x
  {
    forall k | 0 <= k < n ensures pids[k] != x {
      assert pids[..n][k] == pids[k];
    }
  }

  /** The children that stay keep their order. */
  lemma RemovedKeepsOrder(pids: seq<int>, pid: int)
    requires pid in pids
    ensures Removed(pids, pid) == pids[..IndexOf(pids, pid)] + pids[IndexOf(pids, pid) + 1..]
    ensures pids == Removed(pids, pid)[..IndexOf(pids, pid)] + [pid] + Removed(pids, pid)[IndexOf(pids, pid)..]
  {
    hide IndexOf;
  }

  /** Removing the child just added gives back the list as it was. */
  lemma RemoveUndoesAdd(pids: seq<int>, capacity: int, pid: int)
    requires pid !in pids && |pids| < capacity
    ensures Removed(Added(pids, capacity, pid), pid) == pids
  {
    var more := pids + [pid];
    assert more[IndexOf(more, pid)] == pid;
  }

  lemma Shifted(was: seq<int>, now: seq<int>, target: nat)
    requires target < |was| && |now| == |was| - 1
    requires forall k :: 0 <= k < |now| ==> now[k] == was[if target <= k then k + 1 else k]
    ensures now == was[..target] + was[target + 1..]
  {
  }

  /** `struct processArray`. */
  class ProcessArray {
    const capacity: int
    var size: nat
    const pids: array<int>

    ghost predicate Valid()
      reads this
    {
      pids.Length == (if capacity < 0 then 0 else capacity) && size <= pids.Length
    }

    function Contents(): seq<int>
      reads this, pids
      requires Valid()
    {
      pids[..size]
    }

    /** The array as `main` allocates it (server.c, lines 69-71); with a negative capacity there is
        none. */
    constructor (maxClient: int)
      ensures Valid() && Contents() == [] && capacity == maxClient && fresh(pids)
    {
      capacity := maxClient;
      size := 0;
      pids := new int[if maxClient < 0 then 0 else maxClient];
    }

    method AddPidList(pid: int) returns (status: int)
      requires Valid() && capacity >= 0
      modifies this, pids
      ensures Valid() && Contents() == Added(old(Contents()), capacity, pid)
      ensures status == if old(size) == capacity then -1 else 0
    {
      if size == capacity {
        return -1;
      }
      pids[size] := pid;
      size := size + 1;
      return 0;
    }

    method FindPidList(pid: int) returns (i: int)
      requires Valid()
      ensures i == IndexOf(Contents(), pid)
    {
      i := 0;
      while i < size
        invariant 0 <= i <= size
        invariant pid !in pids[..i]
      {
        if pids[i] == pid {
          assert Contents()[..i] == pids[..i];
          return i;
        }
        i := i + 1;
      }
      assert pids[..size] == pids[..i];
      return -1;
    }

    method RemovePidList(pid: int) returns (status: int)
      requires Valid()
      modifies this, pids
      ensures Valid() && Contents() == Removed(old(Contents()), pid)
      ensures status == if pid in old(Contents()) then 0 else -1
    {
      hide IndexOf, Removed;
      RemovedIs(Contents(), pid);
      var target := FindPidList(pid);
      if target == -1 {
        return -1;
      }
      ShiftDown(target);
      return 0;
    }

    /** Lines 105-107. */
    method ShiftDown(target: nat)
      requires Valid() && target < size
      modifies this, pids
      ensures Valid() && Contents() == old(Contents())[..target] + old(Contents())[target + 1..]
    {
      ghost var was := pids[..size];
      size := size - 1;
      var i := target;
      while i < size
        invariant target <= i <= size == |was| - 1
        invariant forall k :: 0 <= k < |was| ==> pids[k] == was[if target <= k < i then k + 1 else k]
      {
        pids[i] := pids[i + 1];
        i := i + 1;
      }
      Shifted(was, pids[..size], target);
    }
  }
}
