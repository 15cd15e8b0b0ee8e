/**
 racey-guarded.c never deadlocks, and every complete run has the same number of steps.
 */
module GuardedProgress {
  import opened Mixing
  import opened Runs
  import opened Shared
  import opened Guarded

  /** Steps that a thread has still to take: nine for each iteration, and three around the loop. */
  function StepsLeft(c: Config, th: Thread): int
  {
    var rest := 9 * (c.maxLoop - th.i);
    match th.pc
    case Arrive => rest + 3
    case Wait => rest + 2
    case Top => rest + 1
    case Lock1 => rest
    case Read1 => rest - 1
    case Unlock1 => rest - 2
    case Lock2 => rest - 3
    case Read2 => rest - 4
    case Write2 => rest - 5
    case Unlock2 => rest - 6
    case Store => rest - 7
    case Done => rest
  }

  function TotalLeft(c: Config, s: State, n: nat): int
    requires n < |s.threads|
  {
    if n == 0 then 0 else TotalLeft(c, s, n - 1) + StepsLeft(c, s.threads[n])
  }

  /** The threads among 1..n that have reached the barrier. */
  function PastArrival(s: State, n: nat): nat
    requires n < |s.threads|
  {
    if n == 0 then 0 else PastArrival(s, n - 1) + if s.threads[n].pc == Arrive then 0 else 1
  }

  ghost predicate ProgressInv(c: Config, s: State)
  {
    Inv(c, s) && s.arrived == PastArrival(s, c.procs)
  }

  lemma {:induction false} StepCounts(c: Config, s: State, t: nat, n: nat)
    requires Inv(c, s) && Moves(c, s, t) && n <= c.procs
    ensures TotalLeft(c, Step(c, s, t), n) == TotalLeft(c, s, n) - if t <= n then 1 else 0
    ensures PastArrival(Step(c, s, t), n)
         == PastArrival(s, n) + if t <= n && s.threads[t].pc == Arrive then 1 else 0
  {
    hide Mix;
    if n > 0 {
      StepCounts(c, s, t, n - 1);
      assert ThreadInv(c, s, n);
    }
  }

  lemma {:induction false} InitCounts(c: Config, n: nat)
    requires n <= c.procs
    ensures TotalLeft(c, Init(c), n) == n * (9 * c.maxLoop + 3) && PastArrival(Init(c), n) == 0
  {
    if n > 0 {
      InitCounts(c, n - 1);
      assert n * (9 * c.maxLoop + 3) == (n - 1) * (9 * c.maxLoop + 3) + (9 * c.maxLoop + 3);
    }
  }

  lemma {:induction false} RunCounts(c: Config, s: State, run: seq<nat>)
    requires ProgressInv(c, s) && Exec(Next(c), s, run).Some?
    ensures var s' := Exec(Next(c), s, run).value;
            ProgressInv(c, s') && |run| + TotalLeft(c, s', c.procs) == TotalLeft(c, s, c.procs)
    decreases |run|
  {
    if run != [] {
      StepKeepsInv(c, s, run[0]);
      StepCounts(c, s, run[0], c.procs);
      RunCounts(c, Step(c, s, run[0]), run[1..]);
    }
  }

  lemma {:induction false} NoneLeftIsDone(c: Config, s: State, n: nat)
    requires Inv(c, s) && n <= c.procs
    ensures TotalLeft(c, s, n) >= 0
    ensures TotalLeft(c, s, n) == 0 <==> forall t :: 1 <= t <= n ==> s.threads[t].pc == Done
  {
    if n > 0 {
      NoneLeftIsDone(c, s, n - 1);
      assert ThreadInv(c, s, n);
    }
  }

  lemma {:induction false} AllArrived(s: State, n: nat)
    requires n < |s.threads|
    ensures PastArrival(s, n) <= n
    ensures PastArrival(s, n) == n <==> forall t :: 1 <= t <= n ==> s.threads[t].pc != Arrive
  {
    if n > 0 {
      AllArrived(s, n - 1);
    }
  }

  lemma SomeThreadMoves(c: Config, s: State)
    requires ProgressInv(c, s) && !AllDone(c, s)
    ensures exists t :: Moves(c, s, t)
  {
    var t :| 1 <= t <= c.procs && s.threads[t].pc != Done;
    var th := s.threads[t];
    if exists u :: 1 <= u <= c.procs && s.threads[u].pc == Arrive {
      var u :| 1 <= u <= c.procs && s.threads[u].pc == Arrive;
      assert Moves(c, s, u);
    } else {
      AllArrived(s, c.procs);
      var l := th.index % c.locks;
      if AsksForLock(th.pc) && s.holder[l].Some? {
        assert LockInv(c, s, l);
        assert Moves(c, s, s.holder[l].value);
      } else {
        assert Moves(c, s, t);
      }
    }
  }

  /**
   No deadlock: a run can be continued until all threads are done, and it is complete exactly
   when it has procs * (9 * maxLoop + 3) steps.
   */
  lemma NoDeadlock(c: Config, run: seq<nat>)
    requires Exec(Next(c), Init(c), run).Some?
    ensures var s, all := Exec(Next(c), Init(c), run).value, c.procs * (9 * c.maxLoop + 3);
            && |run| <= all
            && (AllDone(c, s) <==> |run| == all)
            && (AllDone(c, s) || exists t :: Moves(c, s, t))
  {
    InitInv(c);
    InitCounts(c, c.procs);
    RunCounts(c, Init(c), run);
    var s := Exec(Next(c), Init(c), run).value;
    NoneLeftIsDone(c, s, c.procs);
    if !AllDone(c, s) {
      SomeThreadMoves(c, s);
    }
  }

  // ----- The barrier

  /** Before the last thread has arrived nothing has happened. */
  ghost predicate BarrierInv(c: Config, s: State)
  {
    && ProgressInv(c, s)
    && (s.arrived < c.procs ==>
          && s.m == InitialElements(c.elems) && s.sig == InitialSig(c.procs)
          && forall t :: 1 <= t <= c.procs ==> s.threads[t].pc in {Arrive, Wait})
  }

  lemma StepKeepsBarrier(c: Config, s: State, t: nat)
    requires BarrierInv(c, s) && Moves(c, s, t)
    ensures BarrierInv(c, Step(c, s, t))
  {
    hide Mix;
    StepKeepsInv(c, s, t);
    StepCounts(c, s, t, c.procs);
    AllArrived(s, c.procs);
    hide Inv;
  }

  lemma {:induction false} RunKeepsBarrier(c: Config, s: State, run: seq<nat>)
    requires BarrierInv(c, s) && Exec(Next(c), s, run).Some?
    ensures BarrierInv(c, Exec(Next(c), s, run).value)
    decreases |run|
  {
    hide BarrierInv;
    if run != [] {
      StepKeepsBarrier(c, s, run[0]);
      RunKeepsBarrier(c, Step(c, s, run[0]), run[1..]);
    }
  }

  /** Until every thread is at the barrier, m[] and sig[] are untouched and nobody is in the loop. */
  lemma BarrierSafety(c: Config, run: seq<nat>, t: nat)
    requires Exec(Next(c), Init(c), run).Some? && 1 <= t <= c.procs
    ensures var s := Exec(Next(c), Init(c), run).value;
            && Sized(c, s)
            && (s.m != InitialElements(c.elems) || s.sig != InitialSig(c.procs) || s.threads[t].pc !in {Arrive, Wait} ==>
                  forall u :: 1 <= u <= c.procs ==> s.threads[u].pc != Arrive)
  {
    InitInv(c);
    InitCounts(c, c.procs);
    RunKeepsBarrier(c, Init(c), run);
    AllArrived(Exec(Next(c), Init(c), run).value, c.procs);
  }
}
