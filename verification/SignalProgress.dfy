/** racey-signal.c: signals are accounted for, and every run ends. */
module SignalProgress {
  import opened Mixing
  import opened Runs
  import opened Shared
  import opened Sums
  import opened Signals

  // ----- Signals sent, delivered, pending and merged

  function SendsOf(s: State): seq<int>
  {
    seq(|s.threads|, t requires 0 <= t < |s.threads| => s.threads[t].sends)
  }

  function RunsOf(s: State): seq<int>
  {
    seq(|s.threads|, t requires 0 <= t < |s.threads| => s.threads[t].runs)
  }

  function PendingOf(s: State): seq<int>
  {
    seq(|s.pending|, t requires 0 <= t < |s.pending| => if s.pending[t] then 1 else 0)
  }

  predicate Balanced(s: State)
  {
    Sum(SendsOf(s)) == Sum(RunsOf(s)) + Sum(PendingOf(s)) + s.coalesced
  }

  lemma KillKeepsBalance(c: Setup, s: State, t: nat)
    requires Sized(c, s) && t < 33 && s.threads[t].pc == Kill && Balanced(s)
    ensures Balanced(BodyStep(c, s, t))
  {
    hide Mix;
    var s', u := BodyStep(c, s, t), TargetOf(c, s, t);
    SumChange(SendsOf(s), SendsOf(s'), t);
    assert RunsOf(s') == RunsOf(s);
    hide TargetOf;
    SumChange(PendingOf(s), PendingOf(s'), u);
  }

  lemma OtherStepKeepsBalance(c: Setup, s: State, t: nat)
    requires Moves(c, s, Run(t)) && Balanced(s) && (s.threads[t].handler.Some? || s.threads[t].pc != Kill)
    ensures Balanced(Step(c, s, Run(t)))
  {
    hide Mix;
    hide TargetOf;
    var s' := Step(c, s, Run(t));
    assert SendsOf(s') == SendsOf(s) && RunsOf(s') == RunsOf(s) && PendingOf(s') == PendingOf(s);
  }

  lemma StepKeepsBalance(c: Setup, s: State, l: Move)
    requires Moves(c, s, l) && Balanced(s)
    ensures Balanced(Step(c, s, l))
  {
    var s' := Step(c, s, l);
    match l
    case Create =>
      assert SendsOf(s') == SendsOf(s) && RunsOf(s') == RunsOf(s) && PendingOf(s') == PendingOf(s);
    case Run(t) =>
      if s.threads[t].handler.None? && s.threads[t].pc == Kill {
        KillKeepsBalance(c, s, t);
      } else {
        OtherStepKeepsBalance(c, s, t);
      }
    case Deliver(t) =>
      assert SendsOf(s') == SendsOf(s);
      SumChange(RunsOf(s), RunsOf(s'), t);
      SumChange(PendingOf(s), PendingOf(s'), t);
  }

  lemma {:induction false} RunKeepsBalance(c: Setup, s: State, run: seq<Move>)
    requires Balanced(s) && Exec(Next(c), s, run).Some?
    ensures Balanced(Exec(Next(c), s, run).value)
    decreases |run|
  {
    hide Balanced;
    if run != [] {
      StepKeepsBalance(c, s, run[0]);
      RunKeepsBalance(c, Step(c, s, run[0]), run[1..]);
    }
  }

  /** Each signal sent has run the handler, is pending, or was merged; so handlers run at most that often. */
  lemma SignalsAreAccountedFor(c: Setup, beyond: nat, run: seq<Move>)
    requires Exec(Next(c), Init(c, beyond), run).Some?
    ensures var s := Exec(Next(c), Init(c, beyond), run).value;
            && Sum(SendsOf(s)) == Sum(RunsOf(s)) + Sum(PendingOf(s)) + s.coalesced
            && Sum(RunsOf(s)) <= Sum(SendsOf(s))
  {
    var s0 := Init(c, beyond);
    assert SendsOf(s0) == RunsOf(s0) == PendingOf(s0);
    SumZero(SendsOf(s0));
    RunKeepsBalance(c, s0, run);
    SumNonNegative(PendingOf(Exec(Next(c), s0, run).value));
  }

  // ----- Termination

  function BodyLeft(c: Setup, th: Thread): int
  {
    var w := 520 * (c.maxLoop - th.i);
    match th.pc
    case SetSelf => w + 9
    case Install => w + 8
    case Arrive1 => w + 7
    case Held1 => w + 6
    case Inner => w + 5 + if th.k > 0 then 510 else 0
    case Read1 => w + 4
    case Read2 => w + 3
    case Write => w + 2
    case Store => w + 1
    case Kill => w + 510
    case Arrive2 => w + 3
    case Held2 => w + 2
    case Done => w
  }

  function HandlerLeft(th: Thread): int
  {
    match th.handler
    case None => 0
    case Some(h) =>
      var w := 5 * (HANDLER_LOOPS - h.j);
      match h.pc
      case HTop => w + 1
      case HRead1 => w
      case HRead2 => w - 1
      case HWrite => w - 2
      case HStore => w - 3
  }

  function ThreadsLeft(c: Setup, s: State): seq<int>
  {
    seq(|s.threads|, t requires 0 <= t < |s.threads| =>
      if 1 <= t <= c.procs then BodyLeft(c, s.threads[t]) + HandlerLeft(s.threads[t]) else 0)
  }

  /** A pending signal weighs more than the handler run that it causes. */
  function Left(c: Setup, s: State): int
  {
    (c.procs - s.created) + Sum(ThreadsLeft(c, s)) + 503 * Sum(PendingOf(s))
  }

  ghost predicate HandlerInv(th: Thread)
  {
    th.handler.Some? ==> th.handler.value.j <= HANDLER_LOOPS
                         && (th.handler.value.pc != HTop ==> th.handler.value.j < HANDLER_LOOPS)
  }

  ghost predicate HandlersInv(s: State)
  {
    forall t :: 0 <= t < |s.threads| ==> HandlerInv(s.threads[t])
  }

  lemma StepKeepsHandlers(c: Setup, s: State, l: Move)
    requires Moves(c, s, l) && HandlersInv(s)
    ensures HandlersInv(Step(c, s, l))
  {
    hide Mix;
    hide TargetOf;
  }

  lemma HandlerDecreases(c: Setup, s: State, t: nat)
    requires Moves(c, s, Run(t)) && s.threads[t].handler.Some? && HandlerInv(s.threads[t])
    ensures Left(c, HandlerStep(c, s, t)) < Left(c, s)
  {
    hide Mix;
    hide Sum;
    var s' := HandlerStep(c, s, t);
    SumChange(ThreadsLeft(c, s), ThreadsLeft(c, s'), t);
    assert PendingOf(s') == PendingOf(s);
  }

  lemma BodyDecreases(c: Setup, s: State, t: nat)
    requires Moves(c, s, Run(t)) && s.threads[t].handler.None? && s.threads[t].pc != Kill && LoopInv(c, s, t)
    ensures Left(c, BodyStep(c, s, t)) < Left(c, s)
  {
    hide Mix;
    hide TargetOf;
    hide BatchSize;
    var s' := BodyStep(c, s, t);
    SumChange(ThreadsLeft(c, s), ThreadsLeft(c, s'), t);
    assert PendingOf(s') == PendingOf(s);
  }

  lemma KillDecreases(c: Setup, s: State, t: nat)
    requires Moves(c, s, Run(t)) && s.threads[t].handler.None? && s.threads[t].pc == Kill
    ensures Left(c, BodyStep(c, s, t)) < Left(c, s)
  {
    hide Mix;
    var s', u := BodyStep(c, s, t), TargetOf(c, s, t);
    SumChange(ThreadsLeft(c, s), ThreadsLeft(c, s'), t);
    hide TargetOf;
    SumChange(PendingOf(s), PendingOf(s'), u);
  }

  lemma StepDecreases(c: Setup, s: State, l: Move)
    requires Inv(c, s) && HandlersInv(s) && Moves(c, s, l)
    ensures Left(c, Step(c, s, l)) < Left(c, s)
  {
    var s' := Step(c, s, l);
    match l
    case Create =>
      assert ThreadsLeft(c, s') == ThreadsLeft(c, s) && PendingOf(s') == PendingOf(s);
    case Run(t) =>
      hide Left;
      assert LoopInv(c, s, t) && HandlerInv(s.threads[t]);
      if s.threads[t].handler.Some? {
        HandlerDecreases(c, s, t);
      } else if s.threads[t].pc == Kill {
        KillDecreases(c, s, t);
      } else {
        BodyDecreases(c, s, t);
      }
    case Deliver(t) =>
      SumChange(ThreadsLeft(c, s), ThreadsLeft(c, s'), t);
      SumChange(PendingOf(s), PendingOf(s'), t);
  }

  lemma LeftNonNegative(c: Setup, s: State)
    requires Inv(c, s) && HandlersInv(s)
    ensures Left(c, s) >= 0
  {
    hide BatchSize;
    forall t | 0 <= t < 33
      ensures ThreadsLeft(c, s)[t] >= 0
    {
      assert HandlerInv(s.threads[t]);
      assert 1 <= t <= c.procs ==> LoopInv(c, s, t);
    }
    SumNonNegative(ThreadsLeft(c, s));
    SumNonNegative(PendingOf(s));
  }

  lemma {:induction false} RunDecreases(c: Setup, s: State, run: seq<Move>)
    requires Inv(c, s) && HandlersInv(s) && Exec(Next(c), s, run).Some?
    ensures var s' := Exec(Next(c), s, run).value;
            Inv(c, s') && HandlersInv(s') && |run| + Left(c, s') <= Left(c, s)
    decreases |run|
  {
    hide Inv;
    hide HandlersInv;
    hide Left;
    if run != [] {
      StepKeepsInv(c, s, run[0]);
      StepKeepsHandlers(c, s, run[0]);
      StepDecreases(c, s, run[0]);
      RunDecreases(c, Step(c, s, run[0]), run[1..]);
    }
  }

  // ----- Deadlock freedom

  lemma {:induction false} EverybodyHeld(s: State, n: nat)
    requires n < |s.threads| && forall t :: 1 <= t <= n ==> IsHeld(s, t)
    ensures HeldCount(s, n) == n
  {
    if n > 0 {
      EverybodyHeld(s, n - 1);
    }
  }

  lemma SomeThreadMoves(c: Setup, s: State, t: nat)
    requires Inv(c, s) && 1 <= t <= c.procs && s.threads[t].pc != Done
    ensures exists l :: Moves(c, s, l)
  {
    hide LoopInv;
    if s.created < c.procs {
      assert Moves(c, s, Create);
    } else if u :| 1 <= u <= c.procs && Moves(c, s, Run(u)) {
    } else {
      forall u | 1 <= u <= c.procs
        ensures IsHeld(s, u)
      {
        assert !Moves(c, s, Run(u)) && !Moves(c, s, Run(t));
        assert ThreadInv(c, s, u) && ThreadInv(c, s, t);
      }
      EverybodyHeld(s, c.procs);
    }
  }

  /**
   Nobody waits for ever at the barrier, and no run is endless: there is a bound on the length of
   all runs, and one that cannot be continued ends with all threads returned.
   */
  lemma RunsEnd(c: Setup, beyond: nat, run: seq<Move>)
    requires Exec(Next(c), Init(c, beyond), run).Some?
    ensures |run| <= Left(c, Init(c, beyond))
    ensures var s := Exec(Next(c), Init(c, beyond), run).value;
            |s.threads| == 33 && ((forall t :: 1 <= t <= c.procs ==> s.threads[t].pc == Done) || exists l :: Moves(c, s, l))
  {
    hide Left;
    InitInv(c, beyond);
    RunDecreases(c, Init(c, beyond), run);
    var s := Exec(Next(c), Init(c, beyond), run).value;
    LeftNonNegative(c, s);
    if t :| 1 <= t <= c.procs && s.threads[t].pc != Done {
      SomeThreadMoves(c, s, t);
    }
  }
}
