/**
 Runs of a labelled step function.

 Every concurrent program of the suite is modelled as a partial step function `next(s, l)`:
 `l` names what the scheduler lets move (a thread, a process, or a thread and a choice), and
 `None` says that the move is blocked.  A run is a sequence of labels.
 */
module Runs {

  datatype Option<+T> = None | Some(value: T)

  /** The state after `run`, or None if some step of `run` is blocked. */
  function Exec<S, L>(next: (S, L) -> Option<S>, s: S, run: seq<L>): Option<S>
  {
    if run == [] then Some(s)
    else match next(s, run[0])
      case None => None
      case Some(s') => Exec(next, s', run[1..])
  }

  lemma {:induction false} ExecAppend<S, L>(next: (S, L) -> Option<S>, s: S, a: seq<L>, b: seq<L>)
    requires Exec(next, s, a).Some?
    ensures Exec(next, s, a + b) == Exec(next, Exec(next, s, a).value, b)
  {
    if a == [] {
      assert a + b == b;
    } else {
      ExecAppend(next, next(s, a[0]).value, a[1..], b);
      assert (a + b)[1..] == a[1..] + b;
    }
  }

  lemma ExecOne<S, L>(next: (S, L) -> Option<S>, s: S, l: L)
    ensures Exec(next, s, [l]) == next(s, l)
  {
    if next(s, l).Some? {
      assert [l][1..] == [];
      assert Exec(next, next(s, l).value, []) == Some(next(s, l).value);
    }
  }

  lemma ExecCons<S, L>(next: (S, L) -> Option<S>, s: S, l: L, rest: seq<L>)
    requires next(s, l).Some?
    ensures Exec(next, s, [l] + rest) == Exec(next, next(s, l).value, rest)
  {
    assert ([l] + rest)[1..] == rest;
  }
}
