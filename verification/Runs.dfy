// Runs of a system of concurrent processes.  A step function says what an action does to a
// state, or None when the action is blocked; a run is a list of actions, in any interleaving.

module Runs {

  datatype Option<+T> = None | Some(value: T)

  /** The state that the actions lead to, or None if one of them was blocked. */
  function Exec<S, A>(step: (S, A) -> Option<S>, s: S, acts: seq<A>): Option<S>
    decreases |acts|
  {
    if acts == [] then Some(s) else
    match step(s, acts[0])
    case None => None
    case Some(t) => Exec(step, t, acts[1..])
  }

  ghost predicate Inductive<S(!new), A(!new)>(step: (S, A) -> Option<S>, inv: S -> bool) {
    forall s, a :: inv(s) && step(s, a).Some? ==> inv(step(s, a).value)
  }

  /** An inductive invariant holds after every run. */
  lemma {:induction false} ExecKeeps<S(!new), A(!new)>(step: (S, A) -> Option<S>, inv: S -> bool, s: S, acts: seq<A>)
    requires Inductive(step, inv) && inv(s) && Exec(step, s, acts).Some?
    ensures inv(Exec(step, s, acts).value)
    decreases |acts|
  {
    if acts != [] {
      ExecKeeps(step, inv, step(s, acts[0]).value, acts[1..]);
    }
  }

  lemma {:induction false} ExecConcat<S, A>(step: (S, A) -> Option<S>, s: S, acts: seq<A>, more: seq<A>)
    requires Exec(step, s, acts).Some?
    ensures Exec(step, s, acts + more) == Exec(step, Exec(step, s, acts).value, more)
    decreases |acts|
  {
    if acts == [] {
      assert acts + more == more;
    } else {
      assert (acts + more)[0] == acts[0] && (acts + more)[1..] == acts[1..] + more;
      ExecConcat(step, step(s, acts[0]).value, acts[1..], more);
    }
  }

  lemma ExecOne<S, A>(step: (S, A) -> Option<S>, s: S, a: A, rest: seq<A>)
    requires step(s, a).Some?
    ensures Exec(step, s, [a] + rest) == Exec(step, step(s, a).value, rest)
    ensures Exec(step, s, [a]) == step(s, a)
  {
    assert ([a] + rest)[1..] == rest;
  }

  lemma ExecCons<S, A>(step: (S, A) -> Option<S>, s: S, a: A, t: S, rest: seq<A>)
    requires step(s, a) == Some(t)
    ensures Exec(step, s, [a] + rest) == Exec(step, t, rest)
  {
    ExecOne(step, s, a, rest);
  }

  /** `t` is reached from `s` by some run. */
  ghost predicate Reaches<S, A(!new)>(step: (S, A) -> Option<S>, s: S, t: S) {
    exists acts :: Exec(step, s, acts) == Some(t)
  }

  lemma ReachesSelf<S, A(!new)>(step: (S, A) -> Option<S>, s: S)
    ensures Reaches(step, s, s)
  {
    assert Exec(step, s, []) == Some(s);
  }

  lemma ReachesStep<S, A(!new)>(step: (S, A) -> Option<S>, s: S, t: S, a: A)
    requires Reaches(step, s, t) && step(t, a).Some?
    ensures Reaches(step, s, step(t, a).value)
  {
    var acts :| Exec(step, s, acts) == Some(t);
    ExecConcat(step, s, acts, [a]);
    ExecOne(step, t, a, []);
  }

  lemma ReachesRun<S, A(!new)>(step: (S, A) -> Option<S>, s: S, t: S, acts: seq<A>)
    requires Reaches(step, s, t) && Exec(step, t, acts).Some?
    ensures Reaches(step, s, Exec(step, t, acts).value)
  {
    var before :| Exec(step, s, before) == Some(t);
    ExecConcat(step, s, before, acts);
  }

  lemma ReachesKeeps<S(!new), A(!new)>(step: (S, A) -> Option<S>, inv: S -> bool, s: S, t: S)
    requires Reaches(step, s, t) && Inductive(step, inv) && inv(s)
    ensures inv(t)
  {
    var acts :| Exec(step, s, acts) == Some(t);
    ExecKeeps(step, inv, s, acts);
  }

  /** If every action in `ok` makes `work` smaller, no run of such actions is longer than the
      work it starts with. */
  lemma {:induction false} ExecBounded<S(!new), A(!new)>(
      step: (S, A) -> Option<S>, inv: S -> bool, ok: A -> bool, work: S -> nat, s: S, acts: seq<A>)
    requires Inductive(step, inv) && inv(s) && Exec(step, s, acts).Some?
    requires forall t, a :: inv(t) && ok(a) && step(t, a).Some? ==> work(step(t, a).value) < work(t)
    requires forall a :: a in acts ==> ok(a)
    ensures |acts| + work(Exec(step, s, acts).value) <= work(s)
    decreases |acts|
  {
    if acts != [] {
      assert acts[0] in acts;
      ExecBounded(step, inv, ok, work, step(s, acts[0]).value, acts[1..]);
    }
  }
}
