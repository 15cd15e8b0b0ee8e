/**
 How the loop is started: racey-nobarrier.c lets a thread enter it as soon as main has created
 the thread, racey-basic.c only after every thread has decremented startCounter.
 */
module Startup {
  import opened Mixing
  import opened Runs
  import opened Shared
  import SharedLoop

  // ----- racey-nobarrier.c

  /** Label 0 lets main create the next thread; label t lets thread t move. */
  datatype Started = Started(created: nat, loop: SharedLoop.State)

  predicate StartedMoves(c: Config, s: Started, t: nat)
  {
    if t == 0 then s.created < c.procs else t <= s.created && SharedLoop.Moves(c, s.loop, t)
  }

  function StartedNext(c: Config): (Started, nat) -> Option<Started>
  {
    (s: Started, t: nat) =>
      if !StartedMoves(c, s, t) then None
      else if t == 0 then Some(s.(created := s.created + 1))
      else Some(s.(loop := SharedLoop.Step(c, s.loop, t)))
  }

  function StartedInit(c: Config): Started { Started(0, SharedLoop.Init(c)) }

  lemma {:induction false} UnstartedKept(c: Config, s: Started, run: seq<nat>, t: nat)
    requires SharedLoop.Sized(c, s.loop) && s.created <= c.procs && 1 <= t <= c.procs
    requires Exec(StartedNext(c), s, run).Some?
    ensures var s' := Exec(StartedNext(c), s, run).value;
            && SharedLoop.Sized(c, s'.loop) && s.created <= s'.created <= c.procs
            && (t > s'.created ==> s'.loop.threads[t] == s.loop.threads[t] && s'.loop.sig[t] == s.loop.sig[t])
    decreases |run|
  {
    hide Mix;
    if run != [] {
      UnstartedKept(c, StartedNext(c)(s, run[0]).value, run[1..], t);
    }
  }

  /** No thread does anything before main has created it. */
  lemma NothingBeforeCreation(c: Config, run: seq<nat>, t: nat)
    requires Exec(StartedNext(c), StartedInit(c), run).Some? && 1 <= t <= c.procs
    ensures var s := Exec(StartedNext(c), StartedInit(c), run).value;
            && SharedLoop.Sized(c, s.loop)
            && (t > s.created ==> s.loop.threads[t] == SharedLoop.Init(c).threads[t] && s.loop.sig[t] == t)
  {
    UnstartedKept(c, StartedInit(c), run, t);
  }

  ghost predicate NoBarrierFinishes(c: Config, run: seq<nat>, m: seq<nat>, sig: seq<nat>)
  {
    match Exec(StartedNext(c), StartedInit(c), run)
    case None => false
    case Some(s) => SharedLoop.AllDone(c, s.loop) && s.loop.m == m && s.loop.sig == sig
  }

  ghost predicate IsNoBarrierResult(c: Config, m: seq<nat>, sig: seq<nat>)
  {
    exists run :: NoBarrierFinishes(c, run, m, sig)
  }

  // ----- racey-basic.c

  /** Where a thread is on its way to the loop; `Store` remembers the value it has loaded. */
  datatype Gate = Lock | Load | Store(seen: int) | Unlock | Spin | Open

  datatype State = State(created: nat, startCounter: int, threadLock: Option<nat>,
                         gates: seq<Gate>, loop: SharedLoop.State)

  function Init(c: Config): State
  {
    State(0, c.procs, None, seq(c.procs + 1, _ => Lock), SharedLoop.Init(c))
  }

  /** A thread that spins moves once it sees startCounter at 0. */
  predicate Moves(c: Config, s: State, t: nat)
  {
    && |s.gates| == c.procs + 1
    && if t == 0 then s.created < c.procs
       else t <= s.created && t <= c.procs &&
            match s.gates[t]
            case Lock => s.threadLock == None
            case Spin => s.startCounter == 0
            case Open => SharedLoop.Moves(c, s.loop, t)
            case _ => true
  }

  function Step(c: Config, s: State, t: nat): State
    requires Moves(c, s, t)
  {
    if t == 0 then s.(created := s.created + 1)
    else
      match s.gates[t]
      case Lock => s.(threadLock := Some(t), gates := s.gates[t := Load])
      case Load => s.(gates := s.gates[t := Store(s.startCounter)])
      case Store(seen) => s.(startCounter := seen - 1, gates := s.gates[t := Unlock])
      case Unlock => s.(threadLock := None, gates := s.gates[t := Spin])
      case Spin => s.(gates := s.gates[t := Open])
      case Open => s.(loop := SharedLoop.Step(c, s.loop, t))
  }

  function Next(c: Config): (State, nat) -> Option<State>
  {
    (s: State, t: nat) => if Moves(c, s, t) then Some(Step(c, s, t)) else None
  }

  ghost predicate Finishes(c: Config, run: seq<nat>, m: seq<nat>, sig: seq<nat>)
  {
    match Exec(Next(c), Init(c), run)
    case None => false
    case Some(s) => SharedLoop.AllDone(c, s.loop) && s.loop.m == m && s.loop.sig == sig
  }

  ghost predicate IsBasicResult(c: Config, m: seq<nat>, sig: seq<nat>)
  {
    exists run :: Finishes(c, run, m, sig)
  }

  // ----- The countdown barrier

  predicate HasDecremented(g: Gate) { g.Unlock? || g.Spin? || g.Open? }

  function Decremented(gates: seq<Gate>, n: nat): (d: nat)
    requires n < |gates|
    ensures d <= n
  {
    if n == 0 then 0 else Decremented(gates, n - 1) + if HasDecremented(gates[n]) then 1 else 0
  }

  ghost predicate GateInv(c: Config, s: State, t: nat)
    requires |s.gates| == c.procs + 1 && 1 <= t <= c.procs
  {
    var g := s.gates[t];
    && (t > s.created ==> g == Lock)
    && (s.threadLock == Some(t) <==> g.Load? || g.Store? || g.Unlock?)
    && (g.Store? ==> g.seen == s.startCounter)
    && (g.Open? ==> s.startCounter == 0)
  }

  ghost predicate Inv(c: Config, s: State)
  {
    && |s.gates| == c.procs + 1 && s.created <= c.procs
    && (forall t :: 1 <= t <= c.procs ==> GateInv(c, s, t))
    && s.startCounter == c.procs - Decremented(s.gates, c.procs)
    && (s.startCounter != 0 ==> s.loop == SharedLoop.Init(c))
  }

  lemma {:induction false} DecrementedUpdate(gates: seq<Gate>, t: nat, g: Gate, n: nat)
    requires 1 <= t < |gates| && n < |gates|
    ensures Decremented(gates[t := g], n)
         == Decremented(gates, n)
            + (if t <= n && HasDecremented(g) then 1 else 0)
            - (if t <= n && HasDecremented(gates[t]) then 1 else 0)
  {
    if n > 0 {
      DecrementedUpdate(gates, t, g, n - 1);
    }
  }

  lemma {:induction false} AllDecremented(gates: seq<Gate>, n: nat)
    requires n < |gates|
    ensures Decremented(gates, n) == n <==> forall t :: 1 <= t <= n ==> HasDecremented(gates[t])
  {
    if n > 0 {
      AllDecremented(gates, n - 1);
    }
  }

  lemma StepKeepsInv(c: Config, s: State, t: nat)
    requires Inv(c, s) && Moves(c, s, t)
    ensures Inv(c, Step(c, s, t))
    ensures 0 <= Step(c, s, t).startCounter <= s.startCounter
  {
    var s' := Step(c, s, t);
    if t != 0 {
      assert GateInv(c, s, t);
      DecrementedUpdate(s.gates, t, s'.gates[t], c.procs);
    }
    forall u | 1 <= u <= c.procs
      ensures GateInv(c, s', u)
    {
      assert GateInv(c, s, u);
    }
  }

  lemma {:induction false} RunKeepsInv(c: Config, s: State, run: seq<nat>)
    requires Inv(c, s) && Exec(Next(c), s, run).Some?
    ensures Inv(c, Exec(Next(c), s, run).value)
    ensures 0 <= Exec(Next(c), s, run).value.startCounter <= s.startCounter
    decreases |run|
  {
    AllDecremented(s.gates, c.procs);
    if run != [] {
      StepKeepsInv(c, s, run[0]);
      RunKeepsInv(c, Step(c, s, run[0]), run[1..]);
    }
  }

  lemma {:induction false} InitInv(c: Config, n: nat)
    requires n <= c.procs
    ensures Decremented(Init(c).gates, n) == 0
  {
    if n > 0 {
      InitInv(c, n - 1);
    }
  }

  /**
   startCounter counts the threads that have still to decrement it, and until the last one has,
   main's initial m[] and sig[] are untouched and no thread is in the loop.
   */
  lemma BarrierSafety(c: Config, run: seq<nat>)
    requires Exec(Next(c), Init(c), run).Some?
    ensures var s := Exec(Next(c), Init(c), run).value;
            && |s.gates| == c.procs + 1
            && s.startCounter == c.procs - Decremented(s.gates, c.procs) && s.startCounter >= 0
            && (s.loop != SharedLoop.Init(c) || (exists t :: 1 <= t <= c.procs && s.gates[t] == Open) ==>
                  s.created == c.procs && forall t :: 1 <= t <= c.procs ==> HasDecremented(s.gates[t]))
  {
    InitInv(c, c.procs);
    assert Inv(c, Init(c));
    RunKeepsInv(c, Init(c), run);
    var s := Exec(Next(c), Init(c), run).value;
    AllDecremented(s.gates, c.procs);
    if s.loop != SharedLoop.Init(c) || exists t :: 1 <= t <= c.procs && s.gates[t] == Open {
      if t :| 1 <= t <= c.procs && s.gates[t] == Open {
        assert GateInv(c, s, t);
      }
      assert GateInv(c, s, c.procs);
    }
  }

  /** Along a run the counter never rises. */
  lemma CounterNeverRises(c: Config, run: seq<nat>, later: seq<nat>)
    requires Exec(Next(c), Init(c), run + later).Some? && Exec(Next(c), Init(c), run).Some?
    ensures Exec(Next(c), Init(c), run + later).value.startCounter
         <= Exec(Next(c), Init(c), run).value.startCounter
  {
    InitInv(c, c.procs);
    assert Inv(c, Init(c));
    RunKeepsInv(c, Init(c), run);
    ExecAppend(Next(c), Init(c), run, later);
    RunKeepsInv(c, Exec(Next(c), Init(c), run).value, later);
  }

  // ----- The results of the three programs coincide

  function LoopSteps(c: Config, s: State, run: seq<nat>): seq<nat>
    requires Exec(Next(c), s, run).Some?
    decreases |run|
  {
    if run == [] then []
    else
      var rest := LoopSteps(c, Step(c, s, run[0]), run[1..]);
      if run[0] != 0 && s.gates[run[0]] == Open then [run[0]] + rest else rest
  }

  lemma {:induction false} EraseBarrier(c: Config, s: State, run: seq<nat>)
    requires Exec(Next(c), s, run).Some?
    ensures Exec(SharedLoop.Next(c), s.loop, LoopSteps(c, s, run)) == Some(Exec(Next(c), s, run).value.loop)
    decreases |run|
  {
    if run != [] {
      var s1 := Step(c, s, run[0]);
      EraseBarrier(c, s1, run[1..]);
      if run[0] != 0 && s.gates[run[0]] == Open {
        ExecCons(SharedLoop.Next(c), s.loop, run[0], LoopSteps(c, s1, run[1..]));
      }
    }
  }

  /** Threads 1..created exist, 1..down have decremented, 1..open are in the loop. */
  function AtBarrier(c: Config, created: nat, down: nat, open: nat): State
    requires created <= c.procs && down <= c.procs
  {
    State(created, c.procs - down, None,
          seq(c.procs + 1, t => if 1 <= t <= open then Open else if 1 <= t <= down then Spin else Lock),
          SharedLoop.Init(c))
  }

  lemma {:induction false} CreateAll(c: Config, n: nat) returns (run: seq<nat>)
    requires n <= c.procs
    ensures Exec(Next(c), Init(c), run) == Some(AtBarrier(c, n, 0, 0))
  {
    if n == 0 {
      run := [];
      assert AtBarrier(c, 0, 0, 0).gates == Init(c).gates;
    } else {
      var before := CreateAll(c, n - 1);
      run := before + [0];
      ExecAppend(Next(c), Init(c), before, [0]);
      ExecOne(Next(c), AtBarrier(c, n - 1, 0, 0), 0);
    }
  }

  lemma DecrementOnce(c: Config, t: nat)
    requires 1 <= t <= c.procs
    ensures Exec(Next(c), AtBarrier(c, c.procs, t - 1, 0), [t, t, t, t]) == Some(AtBarrier(c, c.procs, t, 0))
  {
    var s := AtBarrier(c, c.procs, t - 1, 0);
    var s1 := Step(c, s, t);
    var s2 := Step(c, s1, t);
    var s3 := Step(c, s2, t);
    ExecCons(Next(c), s, t, [t, t, t]);
    ExecCons(Next(c), s1, t, [t, t]);
    ExecCons(Next(c), s2, t, [t]);
    ExecOne(Next(c), s3, t);
    assert Step(c, s3, t).gates == AtBarrier(c, c.procs, t, 0).gates;
  }

  lemma {:induction false} DecrementAll(c: Config, n: nat) returns (run: seq<nat>)
    requires n <= c.procs
    ensures Exec(Next(c), Init(c), run) == Some(AtBarrier(c, c.procs, n, 0))
  {
    if n == 0 {
      run := CreateAll(c, c.procs);
    } else {
      var before := DecrementAll(c, n - 1);
      run := before + [n, n, n, n];
      DecrementOnce(c, n);
      ExecAppend(Next(c), Init(c), before, [n, n, n, n]);
    }
  }

  lemma {:induction false} OpenAll(c: Config, n: nat) returns (run: seq<nat>)
    requires n <= c.procs
    ensures Exec(Next(c), Init(c), run) == Some(AtBarrier(c, c.procs, c.procs, n))
  {
    if n == 0 {
      run := DecrementAll(c, c.procs);
    } else {
      var before := OpenAll(c, n - 1);
      run := before + [n];
      var s := AtBarrier(c, c.procs, c.procs, n - 1);
      ExecAppend(Next(c), Init(c), before, [n]);
      ExecOne(Next(c), s, n);
      assert Step(c, s, n).gates == AtBarrier(c, c.procs, c.procs, n).gates;
    }
  }

  lemma {:induction false} LoopAfterBarrier(c: Config, s: State, run: seq<nat>)
    requires |s.gates| == c.procs + 1 && s.created == c.procs
    requires forall t :: 1 <= t <= c.procs ==> s.gates[t] == Open
    requires Exec(SharedLoop.Next(c), s.loop, run).Some?
    ensures Exec(Next(c), s, run) == Some(s.(loop := Exec(SharedLoop.Next(c), s.loop, run).value))
    decreases |run|
  {
    if run != [] {
      LoopAfterBarrier(c, Step(c, s, run[0]), run[1..]);
    }
  }

  lemma {:induction false} LoopAfterCreation(c: Config, s: Started, run: seq<nat>)
    requires s.created == c.procs && Exec(SharedLoop.Next(c), s.loop, run).Some?
    ensures Exec(StartedNext(c), s, run) == Some(s.(loop := Exec(SharedLoop.Next(c), s.loop, run).value))
    decreases |run|
  {
    if run != [] {
      LoopAfterCreation(c, s.(loop := SharedLoop.Step(c, s.loop, run[0])), run[1..]);
    }
  }

  lemma {:induction false} EraseCreation(c: Config, s: Started, run: seq<nat>) returns (steps: seq<nat>)
    requires Exec(StartedNext(c), s, run).Some?
    ensures Exec(SharedLoop.Next(c), s.loop, steps) == Some(Exec(StartedNext(c), s, run).value.loop)
    decreases |run|
  {
    if run == [] {
      steps := [];
    } else {
      var s1 := StartedNext(c)(s, run[0]).value;
      steps := EraseCreation(c, s1, run[1..]);
      if run[0] != 0 {
        ExecCons(SharedLoop.Next(c), s.loop, run[0], steps);
        steps := [run[0]] + steps;
      }
    }
  }

  lemma {:induction false} CreationRun(c: Config, n: nat)
    requires n <= c.procs
    ensures Exec(StartedNext(c), StartedInit(c), SharedLoop.Repeat(0, n)) == Some(StartedInit(c).(created := n))
  {
    if n > 0 {
      CreationRun(c, n - 1);
      ExecAppend(StartedNext(c), StartedInit(c), SharedLoop.Repeat(0, n - 1), [0]);
      ExecOne(StartedNext(c), StartedInit(c).(created := n - 1), 0);
      assert SharedLoop.Repeat(0, n) == SharedLoop.Repeat(0, n - 1) + [0];
    }
  }

  /** The barrier neither adds nor removes a result. */
  lemma BasicResults(c: Config, m: seq<nat>, sig: seq<nat>)
    ensures IsBasicResult(c, m, sig) <==> SharedLoop.IsResult(c, m, sig)
  {
    if IsBasicResult(c, m, sig) {
      var run :| Finishes(c, run, m, sig);
      EraseBarrier(c, Init(c), run);
      assert SharedLoop.Finishes(c, LoopSteps(c, Init(c), run), m, sig);
    }
    if SharedLoop.IsResult(c, m, sig) {
      var run :| SharedLoop.Finishes(c, run, m, sig);
      var before := OpenAll(c, c.procs);
      ExecAppend(Next(c), Init(c), before, run);
      LoopAfterBarrier(c, AtBarrier(c, c.procs, c.procs, c.procs), run);
      assert Finishes(c, before + run, m, sig);
    }
  }

  lemma NoBarrierResults(c: Config, m: seq<nat>, sig: seq<nat>)
    ensures IsNoBarrierResult(c, m, sig) <==> SharedLoop.IsResult(c, m, sig)
  {
    if IsNoBarrierResult(c, m, sig) {
      var run :| NoBarrierFinishes(c, run, m, sig);
      var steps := EraseCreation(c, StartedInit(c), run);
      assert SharedLoop.Finishes(c, steps, m, sig);
    }
    if SharedLoop.IsResult(c, m, sig) {
      var run :| SharedLoop.Finishes(c, run, m, sig);
      CreationRun(c, c.procs);
      var before := SharedLoop.Repeat(0, c.procs);
      ExecAppend(StartedNext(c), StartedInit(c), before, run);
      LoopAfterCreation(c, StartedInit(c).(created := c.procs), run);
      assert NoBarrierFinishes(c, before + run, m, sig);
    }
  }

  lemma BasicAndNoBarrierAgree(c: Config, m: seq<nat>, sig: seq<nat>)
    ensures IsBasicResult(c, m, sig) <==> IsNoBarrierResult(c, m, sig)
  {
    BasicResults(c, m, sig);
    NoBarrierResults(c, m, sig);
  }
}
