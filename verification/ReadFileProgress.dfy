/** racey-readfile.c: nobody waits for ever at the barrier, and every run ends. */
module ReadFileProgress {
  import opened Runs
  import opened Messages
  import opened Sums
  import opened ReadFile

  function PcLeft(pc: Pc): nat
  {
    match pc case Arrive => 4 case Wait => 3 case Read => 2 case Store => 1 case Done => 0
  }

  function PcsLeft(s: State): seq<int>
  {
    seq(|s.threads|, t requires 0 <= t < |s.threads| => PcLeft(s.threads[t].pc))
  }

  function Left(file: Bytes, s: State): int { |file| - s.offset + Sum(PcsLeft(s)) }

  /** Entry 0 is nobody's. */
  function Arrivals(s: State): seq<int>
  {
    seq(|s.threads|, t requires 0 <= t < |s.threads| => if t > 0 && s.threads[t].pc != Arrive then 1 else 0)
  }

  ghost predicate ProgressInv(procs: nat, file: Bytes, s: State)
  {
    Sized(procs, file, s) && s.arrived == Sum(Arrivals(s))
  }

  lemma StepDecreases(procs: nat, file: Bytes, s: State, t: nat)
    requires ProgressInv(procs, file, s) && Moves(procs, file, s, t)
    ensures var s' := Step(procs, file, s, t);
            ProgressInv(procs, file, s') && Left(file, s') < Left(file, s)
  {
    hide AbsorbRead;
    var s' := Step(procs, file, s, t);
    SumChange(PcsLeft(s), PcsLeft(s'), t);
    SumChange(Arrivals(s), Arrivals(s'), t);
  }

  lemma {:induction false} RunDecreases(procs: nat, file: Bytes, s: State, run: seq<nat>)
    requires ProgressInv(procs, file, s) && Exec(Next(procs, file), s, run).Some?
    ensures var s' := Exec(Next(procs, file), s, run).value;
            ProgressInv(procs, file, s') && |run| + Left(file, s') <= Left(file, s)
    decreases |run|
  {
    hide Left;
    hide ProgressInv;
    if run != [] {
      StepDecreases(procs, file, s, run[0]);
      RunDecreases(procs, file, Step(procs, file, s, run[0]), run[1..]);
    }
  }

  lemma {:induction false} AllArrived(xs: seq<int>, n: nat)
    requires |xs| == n + 1 && xs[0] == 0 && forall t :: 1 <= t <= n ==> 0 <= xs[t] <= 1
    ensures Sum(xs) <= n
    ensures Sum(xs) == n <==> forall t :: 1 <= t <= n ==> xs[t] == 1
  {
    if n > 0 {
      AllArrived(xs[..n], n - 1);
    } else {
      assert Sum(xs[..0]) == 0;
    }
  }

  lemma SomeThreadMoves(procs: nat, file: Bytes, s: State)
    requires ProgressInv(procs, file, s) && !AllDone(procs, s)
    ensures exists t :: Moves(procs, file, s, t)
  {
    if u :| 1 <= u <= procs && s.threads[u].pc == Arrive {
      assert Moves(procs, file, s, u);
    } else {
      AllArrived(Arrivals(s), procs);
      var t :| 1 <= t <= procs && s.threads[t].pc != Done;
      assert Moves(procs, file, s, t);
    }
  }

  /** No deadlock and no endless run; so the file is always handed out to its end. */
  lemma RunsEnd(procs: nat, file: Bytes, run: seq<nat>)
    requires Exec(Next(procs, file), Init(procs), run).Some?
    ensures var s := Exec(Next(procs, file), Init(procs), run).value;
            && |run| <= |file| + 4 * (procs + 1)
            && (AllDone(procs, s) || exists t :: Moves(procs, file, s, t))
  {
    SumZero(Arrivals(Init(procs)));
    SumBound(PcsLeft(Init(procs)), 4);
    RunDecreases(procs, file, Init(procs), run);
    var s := Exec(Next(procs, file), Init(procs), run).value;
    SumNonNegative(PcsLeft(s));
    if !AllDone(procs, s) {
      SomeThreadMoves(procs, file, s);
    }
  }

  lemma {:induction false} SumBound(xs: seq<int>, d: nat)
    requires forall k :: 0 <= k < |xs| ==> xs[k] <= d
    ensures Sum(xs) <= d * |xs|
    decreases |xs|
  {
    if xs != [] {
      SumBound(xs[..|xs| - 1], d);
      assert d * |xs| == d * (|xs| - 1) + d;
    }
  }

  // ----- The barrier

  /** Before the last thread has arrived nobody has read anything. */
  ghost predicate BarrierInv(procs: nat, file: Bytes, s: State)
  {
    && ProgressInv(procs, file, s)
    && (s.arrived < procs ==>
          s.log == [] && s.offset == 0 && forall t :: 1 <= t <= procs ==> s.threads[t].pc in {Arrive, Wait})
  }

  lemma StepKeepsBarrier(procs: nat, file: Bytes, s: State, t: nat)
    requires BarrierInv(procs, file, s) && Moves(procs, file, s, t)
    ensures BarrierInv(procs, file, Step(procs, file, s, t))
  {
    hide AbsorbRead;
    StepDecreases(procs, file, s, t);
    AllArrived(Arrivals(s), procs);
    assert s.arrived == procs ==> Arrivals(s)[t] == 1;
    hide Sum;
    hide NextChunk;
  }

  lemma {:induction false} RunKeepsBarrier(procs: nat, file: Bytes, s: State, run: seq<nat>)
    requires BarrierInv(procs, file, s) && Exec(Next(procs, file), s, run).Some?
    ensures BarrierInv(procs, file, Exec(Next(procs, file), s, run).value)
    decreases |run|
  {
    hide BarrierInv;
    if run != [] {
      StepKeepsBarrier(procs, file, s, run[0]);
      RunKeepsBarrier(procs, file, Step(procs, file, s, run[0]), run[1..]);
    }
  }

  /** Nobody reads until every thread is at the barrier. */
  lemma BarrierSafety(procs: nat, file: Bytes, run: seq<nat>, t: nat)
    requires Exec(Next(procs, file), Init(procs), run).Some? && 1 <= t <= procs
    ensures var s := Exec(Next(procs, file), Init(procs), run).value;
            && Sized(procs, file, s)
            && (s.log != [] || s.offset > 0 || s.threads[t].pc !in {Arrive, Wait} ==>
                  forall u :: 1 <= u <= procs ==> s.threads[u].pc != Arrive)
  {
    SumZero(Arrivals(Init(procs)));
    RunKeepsBarrier(procs, file, Init(procs), run);
    var s := Exec(Next(procs, file), Init(procs), run).value;
    AllArrived(Arrivals(s), procs);
    assert forall u :: 1 <= u <= procs ==> (Arrivals(s)[u] == 1 ==> s.threads[u].pc != Arrive);
  }
}
