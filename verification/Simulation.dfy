/**
 Machines that implement another one: each of their steps is a step of the other machine or none
 of its business, and a measure decreases with every step.
 */
module Simulation {
  import opened Runs

  /**
   A machine with states S and labels L, and what is to be seen of it: `view` is the state, and
   `acts` the steps, of a machine `spec` with states N and labels A.
   */
  datatype Impl<!S, !L, !N, !A> = Impl(
    next: (S, L) -> Option<S>,
    inv: S -> bool,
    left: S -> int,
    view: S -> N,
    acts: (S, L) -> seq<A>,
    spec: (N, A) -> Option<N>)

  /** What one step keeps, does and costs. */
  ghost predicate StepImplements<S, L, N, A>(i: Impl<S, L, N, A>, s: S, l: L)
    requires i.next(s, l).Some?
  {
    var s' := i.next(s, l).value;
    && i.inv(s') && 0 <= i.left(s') < i.left(s)
    && Exec(i.spec, i.view(s), i.acts(s, l)) == Some(i.view(s'))
  }

  ghost predicate Implements<S(!new), L(!new), N, A>(i: Impl<S, L, N, A>)
  {
    forall s, l :: i.inv(s) && i.next(s, l).Some? ==> StepImplements(i, s, l)
  }

  /** The steps of the specification that a run performs. */
  function Seen<S, L, N, A>(i: Impl<S, L, N, A>, s: S, run: seq<L>): seq<A>
    requires Exec(i.next, s, run).Some?
    decreases |run|
  {
    if run == [] then [] else i.acts(s, run[0]) + Seen(i, i.next(s, run[0]).value, run[1..])
  }

  /** Runs of the implementation are runs of the specification, and they are bounded. */
  lemma {:induction false} RunImplements<S(!new), L(!new), N, A>(i: Impl<S, L, N, A>, s: S, run: seq<L>)
    requires Implements(i) && i.inv(s) && Exec(i.next, s, run).Some?
    ensures var s' := Exec(i.next, s, run).value;
            && i.inv(s') && |run| + i.left(s') <= i.left(s)
            && Exec(i.spec, i.view(s), Seen(i, s, run)) == Some(i.view(s'))
    decreases |run|
  {
    hide Implements;
    if run != [] {
      var l := run[0];
      assert StepImplements(i, s, l) by { Instance(i, s, l); }
      var s1 := i.next(s, l).value;
      RunImplements(i, s1, run[1..]);
      ExecAppend(i.spec, i.view(s), i.acts(s, l), Seen(i, s1, run[1..]));
    }
  }

  lemma Instance<S(!new), L(!new), N, A>(i: Impl<S, L, N, A>, s: S, l: L)
    requires Implements(i) && i.inv(s) && i.next(s, l).Some?
    ensures StepImplements(i, s, l)
  {
  }

  /** A step that the specification does not see. */
  predicate Silent<S, L, N, A>(i: Impl<S, L, N, A>, s: S, l: L)
  {
    i.next(s, l).Some? && i.acts(s, l) == []
  }

  ghost predicate Settled<S, L(!new), N, A>(i: Impl<S, L, N, A>, s: S)
  {
    i.inv(s) && forall l :: !Silent(i, s, l)
  }

  /** Silent steps can be made until none is left. */
  lemma {:induction false} Settle<S(!new), L(!new), N, A>(i: Impl<S, L, N, A>, s: S) returns (run: seq<L>, s': S)
    requires Implements(i) && i.inv(s)
    ensures Exec(i.next, s, run) == Some(s') && Settled(i, s') && i.view(s') == i.view(s)
    decreases i.left(s)
  {
    hide Implements;
    if l :| Silent(i, s, l) {
      Instance(i, s, l);
      var s1 := i.next(s, l).value;
      var rest, last := Settle(i, s1);
      run, s' := [l] + rest, last;
      ExecCons(i.next, s, l, rest);
    } else {
      run, s' := [], s;
    }
  }

  ghost predicate CanFollow<S, L(!new), N, A>(i: Impl<S, L, N, A>, s: S, a: A)
  {
    exists l :: i.next(s, l).Some? && i.acts(s, l) == [a]
  }

  /** A settled implementation can make every step that the specification can. */
  ghost predicate Follows<S(!new), L(!new), N, A(!new)>(i: Impl<S, L, N, A>)
  {
    forall s, a :: Settled(i, s) && i.spec(i.view(s), a).Some? ==> CanFollow(i, s, a)
  }

  lemma FollowInstance<S(!new), L(!new), N, A(!new)>(i: Impl<S, L, N, A>, s: S, a: A) returns (l: L)
    requires Follows(i) && Settled(i, s) && i.spec(i.view(s), a).Some?
    ensures i.next(s, l).Some? && i.acts(s, l) == [a]
  {
    assert CanFollow(i, s, a);
    l :| i.next(s, l).Some? && i.acts(s, l) == [a];
  }

  /** Every run of the specification is performed by some run of the implementation. */
  lemma {:induction false} Realise<S(!new), L(!new), N, A(!new)>(i: Impl<S, L, N, A>, s: S, acts: seq<A>)
      returns (run: seq<L>, s': S)
    requires Implements(i) && Follows(i) && i.inv(s) && Exec(i.spec, i.view(s), acts).Some?
    ensures Exec(i.next, s, run) == Some(s') && Settled(i, s')
    ensures Exec(i.spec, i.view(s), acts) == Some(i.view(s'))
    decreases |acts|
  {
    hide Implements;
    hide Follows;
    hide Settled;
    var run0, s0 := Settle(i, s);
    SettledInv(i, s0);
    if acts == [] {
      run, s' := run0, s0;
    } else {
      var l := FollowInstance(i, s0, acts[0]);
      Instance(i, s0, l);
      var s1 := i.next(s0, l).value;
      ExecOne(i.spec, i.view(s0), acts[0]);
      var rest, last := Realise(i, s1, acts[1..]);
      run, s' := run0 + ([l] + rest), last;
      ExecCons(i.next, s0, l, rest);
      ExecAppend(i.next, s, run0, [l] + rest);
    }
  }

  lemma SettledInv<S, L(!new), N, A>(i: Impl<S, L, N, A>, s: S)
    requires Settled(i, s)
    ensures i.inv(s)
  {
  }
}
