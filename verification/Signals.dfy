/**
 racey-signal.c: threads send each other SIGUSR1, whose handler interrupts them anywhere.  One
 barrier is used twice: before the loop, so that all handlers are installed, and after it, so
 that no signal is sent to a thread that has returned.
 */
module Signals {
  import opened Mixing
  import opened Runs
  import opened Shared

  const HANDLER_LOOPS: nat := 100

  datatype Pc =
    | SetSelf | Install | Arrive1 | Held1
    | Inner | Read1 | Read2 | Write | Store | Kill
    | Arrive2 | Held2 | Done

  datatype HandlerPc = HTop | HRead1 | HRead2 | HWrite | HStore

  /** An activation of ThreadSignalHandler; SIGUSR1 stays masked until it returns. */
  datatype Handler = Handler(pc: HandlerPc, j: nat, num: nat, index: nat)

  /** `sends` and `runs` count pthread_kill() calls and handler activations. */
  datatype Thread = Thread(pc: Pc, i: nat, k: nat, num: nat, index: nat, ticket: nat,
                           handler: Option<Handler>, sends: nat, runs: nat)

  /**
   `count` and `generation` are the barrier.  `coalesced` counts the signals that found the same
   signal already pending.
   */
  datatype State = State(m: seq<nat>, sig: seq<nat>, sig2: seq<nat>, selfs: seq<bool>, installed: seq<bool>,
                         created: nat, count: nat, generation: nat,
                         pending: seq<bool>, coalesced: nat, threads: seq<Thread>)

  /** main creates the next thread, thread t executes, or thread t is interrupted. */
  datatype Move = Create | Run(t: nat) | Deliver(t: nat)

  /** sig2[0] is read from beyond the end of sig[], so it can be anything. */
  function Init(c: Setup, beyond: nat): State
  {
    State(InitialElements(c.elems), InitialSig(32), seq(33, i => if i == 0 then beyond else 33 - i),
          seq(33, _ => false), seq(33, _ => false), 0, 0, 0, seq(33, _ => false), 0,
          seq(33, _ => Thread(SetSelf, 0, 0, 0, 0, 0, None, 0, 0)))
  }

  predicate Sized(c: Setup, s: State)
  {
    && |s.m| == c.elems
    && |s.sig| == |s.sig2| == |s.selfs| == |s.installed| == |s.pending| == |s.threads| == 33
    && forall t :: 0 <= t < 33 ==>
         s.threads[t].index < c.elems && (s.threads[t].handler.Some? ==> s.threads[t].handler.value.index < c.elems)
  }

  predicate IsThread(c: Setup, s: State, t: nat) { 1 <= t <= c.procs && t <= s.created }

  predicate Moves(c: Setup, s: State, l: Move)
  {
    Sized(c, s) &&
    match l
    case Create => s.created < c.procs
    case Run(t) =>
      && IsThread(c, s, t)
      && (s.threads[t].handler.Some? ||
           match s.threads[t].pc
           case Held1 | Held2 => s.generation > s.threads[t].ticket
           case Done => false
           case _ => true)
    case Deliver(t) =>
      IsThread(c, s, t) && s.pending[t] && s.threads[t].handler.None? && s.threads[t].pc != Done
  }

  function HandlerStep(c: Setup, s: State, t: nat): State
    requires Sized(c, s) && t < 33 && s.threads[t].handler.Some?
  {
    var th := s.threads[t];
    var h := th.handler.value;
    match h.pc
    case HTop =>
      var num := s.sig2[t];
      s.(threads := s.threads[t := th.(handler :=
        if h.j < HANDLER_LOOPS then Some(Handler(HRead1, h.j, num, num % c.elems)) else None)])
    case HRead1 =>
      var num := Mix(h.num, s.m[h.index]);
      s.(threads := s.threads[t := th.(handler := Some(Handler(HRead2, h.j, num, num % c.elems)))])
    case HRead2 =>
      s.(threads := s.threads[t := th.(handler := Some(h.(pc := HWrite, num := Mix(h.num, s.m[h.index]))))])
    case HWrite =>
      s.(m := s.m[h.index := h.num], threads := s.threads[t := th.(handler := Some(h.(pc := HStore)))])
    case HStore =>
      s.(sig2 := s.sig2[t := h.num], threads := s.threads[t := th.(handler := Some(h.(pc := HTop, j := h.j + 1)))])
  }

  /** The last thread to arrive opens the barrier and is let through at once. */
  function Arrive(c: Setup, s: State, t: nat, held: Pc): State
    requires Sized(c, s) && t < 33
  {
    var th := s.threads[t].(pc := held, ticket := s.generation);
    if s.count + 1 == c.procs then s.(count := 0, generation := s.generation + 1, threads := s.threads[t := th])
    else s.(count := s.count + 1, threads := s.threads[t := th])
  }

  function TargetOf(c: Setup, s: State, t: nat): (u: nat)
    requires t < |s.sig|
    ensures 1 <= u <= c.procs
  {
    s.sig[t] % c.procs + 1
  }

  function BodyStep(c: Setup, s: State, t: nat): State
    requires Sized(c, s) && t < 33
  {
    var th := s.threads[t];
    match th.pc
    case SetSelf => s.(selfs := s.selfs[t := true], threads := s.threads[t := th.(pc := Install)])
    case Install => s.(installed := s.installed[t := true], threads := s.threads[t := th.(pc := Arrive1)])
    case Arrive1 => Arrive(c, s, t, Held1)
    case Held1 => s.(threads := s.threads[t := th.(pc := if th.i < c.maxLoop then Inner else Arrive2, k := 0)])
    case Inner =>
      var num := s.sig[t];
      s.(threads := s.threads[t :=
        if th.k < BatchSize(c.maxLoop) && th.i < c.maxLoop
        then th.(pc := Read1, num := num, index := num % c.elems) else th.(pc := Kill)])
    case Read1 =>
      var num := Mix(th.num, s.m[th.index]);
      s.(threads := s.threads[t := th.(pc := Read2, num := num, index := num % c.elems)])
    case Read2 =>
      s.(threads := s.threads[t := th.(pc := Write, num := Mix(th.num, s.m[th.index]))])
    case Write =>
      s.(m := s.m[th.index := th.num], threads := s.threads[t := th.(pc := Store)])
    case Store =>
      s.(sig := s.sig[t := th.num], threads := s.threads[t := th.(pc := Inner, k := th.k + 1, i := th.i + 1)])
    case Kill =>
      var u := TargetOf(c, s, t);
      s.(pending := s.pending[u := true],
         coalesced := s.coalesced + if s.pending[u] then 1 else 0,
         threads := s.threads[t :=
           th.(sends := th.sends + 1, k := 0, pc := if th.i < c.maxLoop then Inner else Arrive2)])
    case Arrive2 => Arrive(c, s, t, Held2)
    case Held2 => s.(threads := s.threads[t := th.(pc := Done)])
    case Done => s
  }

  function Step(c: Setup, s: State, l: Move): State
    requires Moves(c, s, l)
  {
    match l
    case Create => s.(created := s.created + 1)
    case Run(t) => if s.threads[t].handler.Some? then HandlerStep(c, s, t) else BodyStep(c, s, t)
    case Deliver(t) =>
      var th := s.threads[t];
      s.(pending := s.pending[t := false],
         threads := s.threads[t := th.(handler := Some(Handler(HTop, 0, 0, 0)), runs := th.runs + 1)])
  }

  function Next(c: Setup): (State, Move) -> Option<State>
  {
    (s: State, l: Move) => if Moves(c, s, l) then Some(Step(c, s, l)) else None
  }

  // ----- What every step keeps

  predicate BeforeBarrier1(pc: Pc) { pc in {SetSelf, Install, Arrive1} }
  predicate InLoop(pc: Pc) { pc in {Inner, Read1, Read2, Write, Store, Kill, Arrive2} }

  /** Held in the generation that is still open. */
  predicate IsHeld(s: State, t: nat)
    requires t < |s.threads|
  {
    s.threads[t].pc in {Held1, Held2} && s.threads[t].ticket == s.generation
  }

  function HeldCount(s: State, n: nat): (h: nat)
    requires n < |s.threads|
    ensures h <= n
  {
    if n == 0 then 0 else HeldCount(s, n - 1) + if IsHeld(s, n) then 1 else 0
  }

  ghost predicate ThreadInv(c: Setup, s: State, t: nat)
    requires |s.threads| == |s.selfs| == |s.installed| == |s.pending| == 33 && t < 33
  {
    var th := s.threads[t];
    && (th.pc != SetSelf ==> s.selfs[t] && t <= s.created)
    && (th.pc !in {SetSelf, Install} ==> s.installed[t])
    && (BeforeBarrier1(th.pc) ==> s.generation == 0)
    && (th.pc == Held1 ==> th.ticket == 0 && s.generation <= 1)
    && (InLoop(th.pc) ==> s.generation == 1)
    && (th.pc == Held2 ==> th.ticket == 1 && 1 <= s.generation <= 2)
    && (th.pc == Done ==> s.generation == 2 && th.handler.None?)
    && (s.pending[t] || th.handler.Some? || th.runs > 0 ==> s.generation >= 1)
  }

  /** `i` body iterations have been made for `sends` signals and the batch in progress. */
  ghost predicate LoopInv(c: Setup, s: State, t: nat)
    requires |s.threads| == 33 && t < 33
  {
    var th, n := s.threads[t], BatchSize(c.maxLoop);
    && th.i <= c.maxLoop && th.k <= n
    && (th.pc !in {Arrive2, Held2, Done} ==> th.i == th.sends * n + th.k)
    && (BeforeBarrier1(th.pc) || th.pc == Held1 ==> th.i == 0 && th.sends == 0 && th.k == 0)
    && (th.pc in {Read1, Read2, Write, Store} ==> th.i < c.maxLoop && th.k < n)
    && (th.pc == Inner && th.k == 0 ==> th.i < c.maxLoop)
    && (th.pc == Kill ==> (th.k == n || th.i == c.maxLoop) && th.k > 0)
    && (th.pc in {Arrive2, Held2, Done} ==>
          th.i == c.maxLoop && (th.sends - 1) * n < c.maxLoop <= th.sends * n)
  }

  ghost predicate Inv(c: Setup, s: State)
  {
    && Sized(c, s) && s.created <= c.procs && s.generation <= 2
    && s.count == HeldCount(s, c.procs) && s.count < c.procs
    && (forall t :: 1 <= t <= c.procs ==> ThreadInv(c, s, t) && LoopInv(c, s, t))
  }

  lemma {:induction false} NoneHeld(s: State, n: nat)
    requires n < |s.threads| && forall t :: 1 <= t <= n ==> !IsHeld(s, t)
    ensures HeldCount(s, n) == 0
  {
    if n > 0 {
      NoneHeld(s, n - 1);
    }
  }

  lemma {:induction false} HeldChange(s: State, s': State, t: nat, n: nat)
    requires |s.threads| == |s'.threads| && n < |s.threads| && t < |s.threads| && s'.generation == s.generation
    requires forall u :: 0 <= u < |s.threads| && u != t ==>
               s'.threads[u].pc == s.threads[u].pc && s'.threads[u].ticket == s.threads[u].ticket
    ensures HeldCount(s', n)
         == HeldCount(s, n) + if 1 <= t <= n then (if IsHeld(s', t) then 1 else 0) - (if IsHeld(s, t) then 1 else 0) else 0
  {
    if n > 0 {
      HeldChange(s, s', t, n - 1);
    }
  }

  lemma {:induction false} AllOthersHeld(s: State, t: nat, n: nat)
    requires 1 <= t <= n < |s.threads| && !IsHeld(s, t)
    ensures HeldCount(s, n) <= n - 1
    ensures HeldCount(s, n) == n - 1 ==> forall u :: 1 <= u <= n && u != t ==> IsHeld(s, u)
  {
    if t < n {
      AllOthersHeld(s, t, n - 1);
    } else if HeldCount(s, n - 1) == n - 1 {
      AllHeld(s, n - 1);
    }
  }

  lemma {:induction false} AllHeld(s: State, n: nat)
    requires n < |s.threads| && HeldCount(s, n) == n
    ensures forall u :: 1 <= u <= n ==> IsHeld(s, u)
  {
    if n > 0 {
      AllHeld(s, n - 1);
    }
  }

  lemma InitInv(c: Setup, beyond: nat)
    ensures Inv(c, Init(c, beyond))
  {
    NoneHeld(Init(c, beyond), c.procs);
  }

  // ----- Steps that leave the barrier alone

  /** Only `t` changes, and not its place at the barrier. */
  ghost predicate KeepsBarrier(s: State, s': State, t: nat)
  {
    && t < 33 && |s.threads| == |s'.threads| == 33
    && s'.count == s.count && s'.generation == s.generation && s'.created == s.created
    && (forall u :: 0 <= u < 33 && u != t ==> s'.threads[u] == s.threads[u])
    && (IsHeld(s', t) <==> IsHeld(s, t))
  }

  ghost predicate KeepsFlags(s: State, s': State)
    requires |s.pending| == |s'.pending| == 33
  {
    && |s.selfs| == |s'.selfs| == |s.installed| == |s'.installed| == 33
    && (forall u :: 0 <= u < 33 ==> (s.selfs[u] ==> s'.selfs[u]) && (s.installed[u] ==> s'.installed[u]))
    && (s.generation == 0 ==> forall u :: 0 <= u < 33 ==> s'.pending[u] ==> s.pending[u])
  }

  lemma QuietStepKeepsInv(c: Setup, s: State, s': State, t: nat)
    requires Inv(c, s) && Sized(c, s') && KeepsBarrier(s, s', t) && KeepsFlags(s, s') && 1 <= t <= c.procs
    requires ThreadInv(c, s', t) && LoopInv(c, s', t)
    ensures Inv(c, s')
  {
    hide BatchSize;
    HeldChange(s, s', t, c.procs);
    forall u | 1 <= u <= c.procs
      ensures ThreadInv(c, s', u) && LoopInv(c, s', u)
    {
      assert ThreadInv(c, s, u) && LoopInv(c, s, u);
    }
  }

  lemma HandlerStepKeepsInv(c: Setup, s: State, t: nat)
    requires Inv(c, s) && Moves(c, s, Run(t)) && s.threads[t].handler.Some?
    ensures Inv(c, HandlerStep(c, s, t))
  {
    hide Mix;
    hide BatchSize;
    assert ThreadInv(c, s, t) && LoopInv(c, s, t);
    HandlerFrame(c, s, t);
    QuietStepKeepsInv(c, s, HandlerStep(c, s, t), t);
  }

  lemma HandlerFrame(c: Setup, s: State, t: nat)
    requires Sized(c, s) && 1 <= t <= c.procs && s.threads[t].handler.Some?
    requires ThreadInv(c, s, t) && LoopInv(c, s, t)
    ensures var s' := HandlerStep(c, s, t);
            && Sized(c, s') && KeepsBarrier(s, s', t) && KeepsFlags(s, s') && ThreadInv(c, s', t) && LoopInv(c, s', t)
  {
    hide Mix;
    hide BatchSize;
    HandlerChanges(c, s, t);
    HandlerKeepsSized(c, s, t);
    hide HandlerStep;
  }

  lemma HandlerKeepsSized(c: Setup, s: State, t: nat)
    requires Sized(c, s) && t < 33 && s.threads[t].handler.Some?
    ensures var s' := HandlerStep(c, s, t);
            && Sized(c, s') && s'.count == s.count && s'.generation == s.generation && s'.created == s.created
            && s'.selfs == s.selfs && s'.installed == s.installed && s'.pending == s.pending
  {
    hide Mix;
  }

  lemma DeliverKeepsInv(c: Setup, s: State, t: nat)
    requires Inv(c, s) && Moves(c, s, Deliver(t))
    ensures Inv(c, Step(c, s, Deliver(t)))
  {
    hide BatchSize;
    assert ThreadInv(c, s, t) && LoopInv(c, s, t);
    QuietStepKeepsInv(c, s, Step(c, s, Deliver(t)), t);
  }

  lemma CreateKeepsInv(c: Setup, s: State)
    requires Inv(c, s) && Moves(c, s, Create)
    ensures Inv(c, Step(c, s, Create))
  {
    hide BatchSize;
    var s' := Step(c, s, Create);
    HeldChange(s, s', 0, c.procs);
    forall u | 1 <= u <= c.procs
      ensures ThreadInv(c, s', u) && LoopInv(c, s', u)
    {
      assert ThreadInv(c, s, u) && LoopInv(c, s, u);
    }
  }

  lemma BodyFrame(c: Setup, s: State, t: nat)
    requires Sized(c, s) && 1 <= t <= c.procs && s.threads[t].pc !in {Arrive1, Arrive2, Done}
    requires ThreadInv(c, s, t) && t <= s.created && s.generation <= 2 && s.threads[t].handler.None?
    requires s.threads[t].pc in {Held1, Held2} ==> s.generation > s.threads[t].ticket
    ensures var s' := BodyStep(c, s, t);
            && Sized(c, s') && KeepsBarrier(s, s', t) && KeepsFlags(s, s') && ThreadInv(c, s', t)
  {
    hide Mix;
    hide BatchSize;
    BodyKeepsFlags(c, s, t);
    hide TargetOf;
    hide KeepsFlags;
  }

  lemma BodyKeepsFlags(c: Setup, s: State, t: nat)
    requires Sized(c, s) && 1 <= t <= c.procs && s.threads[t].pc !in {Arrive1, Arrive2, Done} && ThreadInv(c, s, t)
    ensures |BodyStep(c, s, t).pending| == 33 && KeepsFlags(s, BodyStep(c, s, t))
  {
    hide Mix;
    hide TargetOf;
    hide BatchSize;
  }

  lemma BodyLoop(c: Setup, s: State, t: nat)
    requires Sized(c, s) && 1 <= t <= c.procs && s.threads[t].pc !in {Arrive1, Arrive2, Done}
    requires LoopInv(c, s, t)
    ensures |BodyStep(c, s, t).threads| == 33 && LoopInv(c, BodyStep(c, s, t), t)
  {
    hide Mix;
    hide TargetOf;
    var th, n := s.threads[t], BatchSize(c.maxLoop);
    assert (th.sends + 1) * n == th.sends * n + n;
    hide BatchSize;
  }

  // ----- The barrier

  lemma ArriveFrame(c: Setup, s: State, t: nat, held: Pc)
    requires Sized(c, s) && 1 <= t <= c.procs && held in {Held1, Held2}
    ensures var s' := Arrive(c, s, t, held);
            && Sized(c, s') && s'.created == s.created && KeepsFlags(s, s')
            && s'.threads == s.threads[t := s.threads[t].(pc := held, ticket := s.generation)]
            && s'.pending == s.pending
            && (if s.count + 1 == c.procs then s'.count == 0 && s'.generation == s.generation + 1
                else s'.count == s.count + 1 && s'.generation == s.generation)
  {
  }

  lemma ArriveKeepsInv(c: Setup, s: State, t: nat)
    requires Inv(c, s) && Moves(c, s, Run(t)) && s.threads[t].handler.None?
    requires s.threads[t].pc in {Arrive1, Arrive2}
    ensures Inv(c, BodyStep(c, s, t))
  {
    hide BatchSize;
    hide LoopInv;
    var held := if s.threads[t].pc == Arrive1 then Held1 else Held2;
    assert BodyStep(c, s, t) == Arrive(c, s, t, held);
    assert ThreadInv(c, s, t);
    ArriveFrame(c, s, t, held);
    hide BodyStep;
    hide Arrive;
    if s.count + 1 == c.procs {
      OpeningKeepsInv(c, s, Arrive(c, s, t, held), t, held);
    } else {
      WaitingKeepsInv(c, s, Arrive(c, s, t, held), t, held);
    }
  }

  lemma WaitingKeepsInv(c: Setup, s: State, s': State, t: nat, held: Pc)
    requires Inv(c, s) && Sized(c, s') && 1 <= t <= c.procs && t <= s.created
    requires s.threads[t].pc == (if held == Held1 then Arrive1 else Arrive2) && held in {Held1, Held2}
    requires s'.created == s.created && KeepsFlags(s, s') && s'.generation == s.generation && s'.pending == s.pending
    requires s'.threads == s.threads[t := s.threads[t].(pc := held, ticket := s.generation)]
    requires s'.count == s.count + 1 < c.procs
    ensures Inv(c, s')
  {
    hide BatchSize;
    HeldChange(s, s', t, c.procs);
    forall u | 1 <= u <= c.procs
      ensures ThreadInv(c, s', u) && LoopInv(c, s', u)
    {
      assert ThreadInv(c, s, u) && LoopInv(c, s, u);
    }
  }

  lemma OpeningKeepsInv(c: Setup, s: State, s': State, t: nat, held: Pc)
    requires Inv(c, s) && Sized(c, s') && 1 <= t <= c.procs && t <= s.created
    requires s.threads[t].pc == (if held == Held1 then Arrive1 else Arrive2) && held in {Held1, Held2}
    requires s'.created == s.created && KeepsFlags(s, s') && s'.generation == s.generation + 1
    requires s'.pending == s.pending
    requires s'.threads == s.threads[t := s.threads[t].(pc := held, ticket := s.generation)]
    requires s'.count == 0 && s.count + 1 == c.procs
    ensures Inv(c, s')
  {
    AllOthersHeld(s, t, c.procs);
    hide ThreadInv;
    hide LoopInv;
    NoneHeldAfterOpening(c, s, s', t);
    OpenedKeepsThreads(c, s, s', t, held);
  }

  lemma NoneHeldAfterOpening(c: Setup, s: State, s': State, t: nat)
    requires Sized(c, s) && 1 <= t <= c.procs && s'.generation == s.generation + 1
    requires exists held :: s'.threads == s.threads[t := s.threads[t].(pc := held, ticket := s.generation)]
    requires forall u :: 1 <= u <= c.procs && u != t ==> IsHeld(s, u)
    ensures HeldCount(s', c.procs) == 0
  {
    forall u | 1 <= u <= c.procs
      ensures !IsHeld(s', u)
    {
      assert u != t ==> IsHeld(s, u);
    }
    NoneHeld(s', c.procs);
  }

  lemma OpenedKeepsThreads(c: Setup, s: State, s': State, t: nat, held: Pc)
    requires Inv(c, s) && Sized(c, s') && 1 <= t <= c.procs && t <= s.created
    requires s.threads[t].pc == (if held == Held1 then Arrive1 else Arrive2) && held in {Held1, Held2}
    requires s'.created == s.created && KeepsFlags(s, s') && s'.generation == s.generation + 1
    requires s'.pending == s.pending
    requires s'.threads == s.threads[t := s.threads[t].(pc := held, ticket := s.generation)]
    requires forall u :: 1 <= u <= c.procs && u != t ==> IsHeld(s, u)
    ensures s'.generation <= 2
    ensures forall u :: 1 <= u <= c.procs ==> ThreadInv(c, s', u) && LoopInv(c, s', u)
  {
    hide BatchSize;
    assert ThreadInv(c, s, t);
    forall u | 1 <= u <= c.procs
      ensures ThreadInv(c, s', u) && LoopInv(c, s', u)
    {
      assert ThreadInv(c, s, u) && LoopInv(c, s, u) && (u != t ==> IsHeld(s, u));
    }
  }

  lemma StepKeepsInv(c: Setup, s: State, l: Move)
    requires Inv(c, s) && Moves(c, s, l)
    ensures Inv(c, Step(c, s, l))
  {
    match l
    case Create => CreateKeepsInv(c, s);
    case Deliver(t) => DeliverKeepsInv(c, s, t);
    case Run(t) =>
      hide BodyStep;
      hide HandlerStep;
      hide BatchSize;
      assert ThreadInv(c, s, t) && LoopInv(c, s, t);
      if s.threads[t].handler.Some? {
        HandlerStepKeepsInv(c, s, t);
      } else if s.threads[t].pc in {Arrive1, Arrive2} {
        ArriveKeepsInv(c, s, t);
      } else {
        BodyFrame(c, s, t);
        BodyLoop(c, s, t);
        QuietStepKeepsInv(c, s, BodyStep(c, s, t), t);
      }
  }

  lemma {:induction false} RunKeepsInv(c: Setup, s: State, run: seq<Move>)
    requires Inv(c, s) && Exec(Next(c), s, run).Some?
    ensures Inv(c, Exec(Next(c), s, run).value)
    decreases |run|
  {
    hide Inv;
    if run != [] {
      StepKeepsInv(c, s, run[0]);
      RunKeepsInv(c, Step(c, s, run[0]), run[1..]);
    }
  }

  // ----- Signal safety

  /**
   A signal is only ever sent to a thread that has stored its threadSelfs entry and installed the
   handler, and that cannot have returned; it is then pending for that thread and for no other.
   */
  lemma KillIsSafe(c: Setup, beyond: nat, run: seq<Move>, t: nat)
    requires Exec(Next(c), Init(c, beyond), run).Some? && 1 <= t <= c.procs
    requires var s := Exec(Next(c), Init(c, beyond), run).value; |s.threads| == |s.sig| == 33 && s.threads[t].pc == Kill
    ensures var s := Exec(Next(c), Init(c, beyond), run).value;
            var u := s.sig[t] % c.procs + 1;
            && 1 <= u <= c.procs && Sized(c, s) && IsThread(c, s, u)
            && s.selfs[u] && s.installed[u] && s.threads[u].pc != Done
            && BodyStep(c, s, t).pending == s.pending[u := true]
  {
    InitInv(c, beyond);
    RunKeepsInv(c, Init(c, beyond), run);
    var s := Exec(Next(c), Init(c, beyond), run).value;
    var u := TargetOf(c, s, t);
    hide TargetOf;
    assert ThreadInv(c, s, t) && ThreadInv(c, s, u);
  }

  /** A thread that has returned executes nothing more, not even its handler. */
  lemma NothingAfterReturn(c: Setup, beyond: nat, run: seq<Move>, t: nat)
    requires Exec(Next(c), Init(c, beyond), run).Some? && 1 <= t <= c.procs
    requires var s := Exec(Next(c), Init(c, beyond), run).value; |s.threads| == 33 && s.threads[t].pc == Done
    ensures var s := Exec(Next(c), Init(c, beyond), run).value;
            s.threads[t].handler.None? && !Moves(c, s, Run(t)) && !Moves(c, s, Deliver(t))
  {
    InitInv(c, beyond);
    RunKeepsInv(c, Init(c, beyond), run);
    assert ThreadInv(c, Exec(Next(c), Init(c, beyond), run).value, t);
  }

  /** No signal is pending and no handler runs before all handlers are installed. */
  lemma NoSignalBeforeInstallation(c: Setup, beyond: nat, run: seq<Move>, t: nat, u: nat)
    requires Exec(Next(c), Init(c, beyond), run).Some? && 1 <= t <= c.procs && 1 <= u <= c.procs
    requires var s := Exec(Next(c), Init(c, beyond), run).value;
             && |s.threads| == |s.pending| == 33
             && (s.pending[t] || s.threads[t].handler.Some? || s.threads[t].runs > 0)
    ensures var s := Exec(Next(c), Init(c, beyond), run).value; Sized(c, s) && s.selfs[u] && s.installed[u]
  {
    InitInv(c, beyond);
    RunKeepsInv(c, Init(c, beyond), run);
    var s := Exec(Next(c), Init(c, beyond), run).value;
    assert ThreadInv(c, s, t) && ThreadInv(c, s, u);
  }

  lemma Monotone(a: int, b: int, n: nat)
    ensures a <= b ==> a * n <= b * n
  {
    if a <= b {
      assert b * n - a * n == (b - a) * n >= 0;
    }
  }

  lemma Products(n: nat, wanted: nat)
    ensures (wanted - 1) * n == n * wanted - n == n * (wanted - 1)
    ensures (2 * wanted - 1) * n == n * wanted + n * wanted - n
    ensures (n + 1) * wanted == n * wanted + wanted
  {
  }

  lemma BatchesAre(sends: nat, n: nat, maxLoop: nat, wanted: nat)
    requires n >= 1 && wanted >= 1 && n * wanted <= maxLoop < (n + 1) * wanted
    requires (sends - 1) * n < maxLoop <= sends * n
    ensures wanted <= sends < 2 * wanted
  {
    Monotone(sends, wanted - 1, n);
    Monotone(2 * wanted - 1, sends - 1, n);
    Monotone(1, n, wanted - 1);
    Products(n, wanted);
  }

  /**
   A thread that is past its loop has made MaxLoop iterations and one send for each batch of them:
   between 1000 and 1999 sends from MaxLoop 1000 on.
   */
  lemma SendsAreExact(c: Setup, beyond: nat, run: seq<Move>, t: nat)
    requires Exec(Next(c), Init(c, beyond), run).Some? && 1 <= t <= c.procs
    requires var s := Exec(Next(c), Init(c, beyond), run).value;
             |s.threads| == 33 && s.threads[t].pc in {Arrive2, Held2, Done}
    ensures var th, n := Exec(Next(c), Init(c, beyond), run).value.threads[t], BatchSize(c.maxLoop);
            && th.i == c.maxLoop && (th.sends - 1) * n < c.maxLoop <= th.sends * n
            && (c.maxLoop >= 1000 ==> 1000 <= th.sends < 2000)
            && (100 <= c.maxLoop < 1000 ==> 100 <= th.sends < 200)
            && (c.maxLoop < 100 ==> th.sends == c.maxLoop)
  {
    InitInv(c, beyond);
    RunKeepsInv(c, Init(c, beyond), run);
    var s := Exec(Next(c), Init(c, beyond), run).value;
    assert LoopInv(c, s, t);
    var sends, n := s.threads[t].sends, BatchSize(c.maxLoop);
    hide Exec;
    hide Inv;
    if c.maxLoop >= 1000 {
      BatchesAre(sends, n, c.maxLoop, 1000);
    } else if c.maxLoop >= 100 {
      BatchesAre(sends, n, c.maxLoop, 100);
    }
  }

  // ----- Who changes what

  /** What a step does to the sig[] and sig2[] entries of `t`, and when. */
  lemma EntryStep(c: Setup, s: State, l: Move, t: nat)
    requires Moves(c, s, l) && t < 33
    ensures var s' := Step(c, s, l);
            && |s'.sig| == |s'.sig2| == |s'.threads| == 33
            && (s'.sig[t] != s.sig[t] ==> l == Run(t) && s.threads[t].handler.None?)
            && (s'.sig2[t] != s.sig2[t] ==> l == Run(t) && s.threads[t].handler.Some?)
            && (s'.threads[t].runs != s.threads[t].runs ==> l == Deliver(t) && s.threads[t].handler.None?)
            && (s.threads[t].handler.Some? ==> s'.threads[t].pc == s.threads[t].pc && s'.threads[t].i == s.threads[t].i)
            && s'.threads[t].i >= s.threads[t].i && s'.threads[t].runs >= s.threads[t].runs
            && (s'.sig[t] != s.sig[t] ==> s'.threads[t].i > s.threads[t].i)
            && (s.threads[t].handler.None? && s'.threads[t].handler.Some? ==> s'.threads[t].runs > s.threads[t].runs)
  {
    hide Mix;
    hide TargetOf;
    hide BatchSize;
    hide Arrive;
    hide BodyStep;
    hide HandlerStep;
    if l.Run? {
      if s.threads[l.t].handler.Some? {
        HandlerChanges(c, s, l.t);
      } else {
        BodyChanges(c, s, l.t);
      }
    }
  }

  lemma HandlerChanges(c: Setup, s: State, t: nat)
    requires Sized(c, s) && t < 33 && s.threads[t].handler.Some?
    ensures var s' := HandlerStep(c, s, t);
            && |s'.sig2| == |s'.threads| == 33 && s'.sig == s.sig
            && (forall u :: 0 <= u < 33 && u != t ==> s'.sig2[u] == s.sig2[u] && s'.threads[u] == s.threads[u])
            && s'.threads[t] == s.threads[t].(handler := s'.threads[t].handler)
  {
    hide Mix;
  }

  lemma BodyChanges(c: Setup, s: State, t: nat)
    requires Sized(c, s) && t < 33
    ensures var s' := BodyStep(c, s, t);
            && |s'.sig| == |s'.threads| == 33 && s'.sig2 == s.sig2
            && s'.threads[t].runs == s.threads[t].runs && s'.threads[t].handler == s.threads[t].handler
            && s'.threads[t].i >= s.threads[t].i && (s'.sig[t] != s.sig[t] ==> s'.threads[t].i > s.threads[t].i)
            && (forall u :: 0 <= u < 33 && u != t ==> s'.sig[u] == s.sig[u] && s'.threads[u] == s.threads[u])
  {
    hide Mix;
    hide TargetOf;
    hide BatchSize;
  }

  lemma StepKeepsSized(c: Setup, s: State, l: Move)
    requires Moves(c, s, l)
    ensures Sized(c, Step(c, s, l))
  {
    hide Mix;
    hide TargetOf;
    hide BatchSize;
  }

  /**
   Over any stretch of a run: sig[t] only changes if the body of `t` completes an iteration, and,
   if no handler of `t` is active at first, sig2[t] only changes if a signal is delivered to `t`.
   Handler runs do not overlap, so as long as none is counted none is active.
   */
  lemma {:induction false} EntriesChangeOnlyBy(c: Setup, s: State, run: seq<Move>, t: nat)
    requires Sized(c, s) && Exec(Next(c), s, run).Some? && t < 33
    ensures var s' := Exec(Next(c), s, run).value;
            && Sized(c, s') && s'.threads[t].i >= s.threads[t].i && s'.threads[t].runs >= s.threads[t].runs
            && (s'.threads[t].i == s.threads[t].i ==> s'.sig[t] == s.sig[t])
            && (s.threads[t].handler.None? && s'.threads[t].runs == s.threads[t].runs ==>
                  s'.sig2[t] == s.sig2[t] && s'.threads[t].handler.None?)
    decreases |run|
  {
    hide Step;
    if run != [] {
      StepKeepsSized(c, s, run[0]);
      EntryStep(c, s, run[0], t);
      EntriesChangeOnlyBy(c, Step(c, s, run[0]), run[1..], t);
    }
  }

  /** A thread that has completed no iteration has its initial sig[] entry, and one that no signal has reached its sig2[]. */
  lemma PrivateEntries(c: Setup, beyond: nat, run: seq<Move>, t: nat)
    requires Exec(Next(c), Init(c, beyond), run).Some? && 1 <= t < 33
    ensures var s := Exec(Next(c), Init(c, beyond), run).value;
            && Sized(c, s)
            && (s.threads[t].i == 0 ==> s.sig[t] == t)
            && (s.threads[t].runs == 0 ==> s.sig2[t] == 33 - t && s.threads[t].handler.None?)
  {
    EntriesChangeOnlyBy(c, Init(c, beyond), run, t);
  }
}
