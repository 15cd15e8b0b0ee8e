/**
 racey-guarded.c seen one critical section at a time: a step of this machine is a whole
 critical section of one thread, together with the thread-local work that goes with it.
 */
module Sections {
  import opened Mixing
  import opened Runs
  import opened Shared

  /** Between the two sections of an iteration a thread holds `num`. */
  datatype Phase = First | Second(num: nat)
  datatype Thread = Thread(i: nat, phase: Phase)

  /** Workers are numbered 1..procs, so entry 0 of `sig` and `threads` belongs to nobody. */
  datatype State = State(m: seq<nat>, sig: seq<nat>, threads: seq<Thread>)

  function Init(c: Config): State
  {
    State(InitialElements(c.elems), InitialSig(c.procs), seq(c.procs + 1, _ => Thread(0, First)))
  }

  predicate Sized(c: Config, s: State)
  {
    |s.m| == c.elems && |s.sig| == |s.threads| == c.procs + 1
  }

  predicate Moves(c: Config, s: State, t: nat)
  {
    && Sized(c, s) && 1 <= t <= c.procs
    && (s.threads[t].phase.Second? || s.threads[t].i < c.maxLoop)
  }

  /** The element that the next section of `t` works on. */
  function Target(c: Config, s: State, t: nat): (k: nat)
    requires Moves(c, s, t)
    ensures k < |s.m|
  {
    (match s.threads[t].phase case First => s.sig[t] case Second(num) => num) % c.elems
  }

  function LockOf(c: Config, s: State, t: nat): (l: nat)
    requires Moves(c, s, t)
    ensures l < c.locks
  {
    Target(c, s, t) % c.locks
  }

  function Step(c: Config, s: State, t: nat): State
    requires Moves(c, s, t)
  {
    var k := Target(c, s, t);
    var i := s.threads[t].i;
    match s.threads[t].phase
    case First =>
      s.(threads := s.threads[t := Thread(i, Second(Mix(s.sig[t], s.m[k])))])
    case Second(num) =>
      var num' := Mix(num, s.m[k]);
      State(s.m[k := num'], s.sig[t := num'], s.threads[t := Thread(i + 1, First)])
  }

  function Next(c: Config): (State, nat) -> Option<State>
  {
    (s: State, t: nat) => if Moves(c, s, t) then Some(Step(c, s, t)) else None
  }

  /** The threads that lock `l` is granted to, in order. */
  function LockLog(c: Config, s: State, run: seq<nat>, l: nat): seq<nat>
    requires Exec(Next(c), s, run).Some?
    decreases |run|
  {
    if run == [] then []
    else
      var rest := LockLog(c, Step(c, s, run[0]), run[1..], l);
      if LockOf(c, s, run[0]) == l then [run[0]] + rest else rest
  }

  ghost predicate SameLogs(c: Config, s: State, a: seq<nat>, b: seq<nat>)
  {
    && Exec(Next(c), s, a).Some? && Exec(Next(c), s, b).Some?
    && forall l :: 0 <= l < c.locks ==> LockLog(c, s, a, l) == LockLog(c, s, b, l)
  }

  // ----- Sections under different locks commute

  lemma OthersKeepSection(c: Config, s: State, t: nat, u: nat)
    requires t != u && Moves(c, s, t) && Moves(c, s, u)
    ensures Moves(c, Step(c, s, u), t)
    ensures Target(c, Step(c, s, u), t) == Target(c, s, t)
  {
  }

  lemma SectionsCommute(c: Config, s: State, t: nat, u: nat)
    requires t != u && Moves(c, s, t) && Moves(c, s, u) && LockOf(c, s, t) != LockOf(c, s, u)
    ensures Moves(c, Step(c, s, u), t) && Moves(c, Step(c, s, t), u)
    ensures Step(c, Step(c, s, u), t) == Step(c, Step(c, s, t), u)
  {
    OthersKeepSection(c, s, t, u);
    OthersKeepSection(c, s, u, t);
    var tu, ut := Step(c, Step(c, s, t), u), Step(c, Step(c, s, u), t);
    assert tu.m == ut.m && tu.sig == ut.sig && tu.threads == ut.threads;
  }

  lemma {:induction false} LogComesFromRun(c: Config, s: State, run: seq<nat>, l: nat)
    requires Exec(Next(c), s, run).Some?
    ensures forall t :: t in LockLog(c, s, run, l) ==> t in run
    decreases |run|
  {
    if run != [] {
      LogComesFromRun(c, Step(c, s, run[0]), run[1..], l);
    }
  }

  /** A thread that heads the log of its lock may as well have moved first of all. */
  lemma {:induction false} MoveToFront(c: Config, s: State, run: seq<nat>, p: nat)
    requires Exec(Next(c), s, run).Some?
    requires p < |run| && run[p] !in run[..p] && Moves(c, s, run[p])
    requires LockLog(c, s, run, LockOf(c, s, run[p])) != []
    requires LockLog(c, s, run, LockOf(c, s, run[p]))[0] == run[p]
    ensures var run' := [run[p]] + (run[..p] + run[p+1..]);
            Exec(Next(c), s, run') == Exec(Next(c), s, run) && SameLogs(c, s, run, run')
    decreases p
  {
    hide Mix;
    hide Step;
    var t, run' := run[p], [run[p]] + (run[..p] + run[p+1..]);
    if p == 0 {
      assert run' == run;
    } else {
      var u, s1, l := run[0], Step(c, s, run[0]), LockOf(c, s, t);
      assert u in run[..p];
      assert run[1..][..p-1] == run[..p][1..];
      OthersKeepSection(c, s, t, u);
      MoveToFront(c, s1, run[1..], p - 1);
      var rest := run[1..][..p-1] + run[1..][p..];
      assert run'[1..] == [u] + rest by {
        assert run[..p] == [u] + run[1..][..p-1];
        assert run[p+1..] == run[1..][p..];
      }
      SectionsCommute(c, s, t, u);
      OthersKeepSection(c, s, u, t);
      SwapHeads(c, s, t, u, rest);
      assert run' == [t] + ([u] + rest);
      SameFirst(c, s, run, [u] + ([t] + rest));
    }
  }

  /** Runs with the same first step, and the same logs after it. */
  lemma SameFirst(c: Config, s: State, a: seq<nat>, b: seq<nat>)
    requires a != [] && b != [] && a[0] == b[0] && Moves(c, s, a[0]) && SameLogs(c, Step(c, s, a[0]), a[1..], b[1..])
    requires Exec(Next(c), Step(c, s, a[0]), a[1..]) == Exec(Next(c), Step(c, s, a[0]), b[1..])
    ensures Exec(Next(c), s, a) == Exec(Next(c), s, b) && SameLogs(c, s, a, b)
  {
    hide Step;
    forall x | 0 <= x < c.locks
      ensures LockLog(c, s, a, x) == LockLog(c, s, b, x)
    {
      assert LockLog(c, Step(c, s, a[0]), a[1..], x) == LockLog(c, Step(c, s, a[0]), b[1..], x);
    }
  }

  lemma SwapHeads(c: Config, s: State, t: nat, u: nat, rest: seq<nat>)
    requires t != u && Moves(c, s, t) && Moves(c, s, u) && LockOf(c, s, t) != LockOf(c, s, u)
    requires Exec(Next(c), s, [u] + ([t] + rest)).Some?
    ensures Exec(Next(c), s, [t] + ([u] + rest)) == Exec(Next(c), s, [u] + ([t] + rest))
    ensures SameLogs(c, s, [t] + ([u] + rest), [u] + ([t] + rest))
  {
    SectionsCommute(c, s, t, u);
    OthersKeepSection(c, s, t, u);
    OthersKeepSection(c, s, u, t);
    var tu, ut := [t] + ([u] + rest), [u] + ([t] + rest);
    assert tu[1..] == [u] + rest && ut[1..] == [t] + rest;
    assert ([u] + rest)[1..] == rest && ([t] + rest)[1..] == rest;
  }

  /** Lock order determines the result, for runs of whole sections. */
  lemma {:induction false} LogsDetermineState(c: Config, s: State, a: seq<nat>, b: seq<nat>)
    requires SameLogs(c, s, a, b)
    ensures Exec(Next(c), s, a) == Exec(Next(c), s, b)
    decreases |a|
  {
    if a == [] {
      assert b == [] || LockLog(c, s, b, LockOf(c, s, b[0])) != [];
    } else {
      var t, l := a[0], LockOf(c, s, a[0]);
      assert LockLog(c, s, a, l)[0] == t;
      LogComesFromRun(c, s, b, l);
      var p := FirstOccurrence(b, t);
      MoveToFront(c, s, b, p);
      var b' := [t] + (b[..p] + b[p+1..]);
      assert b'[1..] == b[..p] + b[p+1..];
      forall x | 0 <= x < c.locks
        ensures LockLog(c, Step(c, s, t), a[1..], x) == LockLog(c, Step(c, s, t), b'[1..], x)
      {
        assert LockLog(c, s, a, x) == LockLog(c, s, b', x);
        if x == l {
          assert LockLog(c, s, a, x)[1..] == LockLog(c, Step(c, s, t), a[1..], x);
          assert LockLog(c, s, b', x)[1..] == LockLog(c, Step(c, s, t), b'[1..], x);
        }
      }
      LogsDetermineState(c, Step(c, s, t), a[1..], b'[1..]);
    }
  }

  lemma {:induction false} FirstOccurrence(run: seq<nat>, t: nat) returns (p: nat)
    requires t in run
    ensures p < |run| && run[p] == t && t !in run[..p]
  {
    if run[0] == t {
      p := 0;
    } else {
      var q := FirstOccurrence(run[1..], t);
      p := q + 1;
      assert run[..p] == [run[0]] + run[1..][..q];
    }
  }
}
