/**
 What racey-guarded.c computes: the order in which the locks are granted decides everything,
 and the results are those of whole critical sections and, with the locks erased, of the
 unguarded loop.
 */
module LockOrder {
  import opened Mixing
  import opened Runs
  import opened Shared
  import opened Guarded
  import Sections
  import SharedLoop

  ghost predicate Finishes(c: Config, run: seq<nat>, m: seq<nat>, sig: seq<nat>)
  {
    match Exec(Next(c), Init(c), run)
    case None => false
    case Some(s) => AllDone(c, s) && s.m == m && s.sig == sig
  }

  /** `m` and `sig` are left behind by some run that every thread has finished. */
  ghost predicate IsResult(c: Config, m: seq<nat>, sig: seq<nat>)
  {
    exists run :: Finishes(c, run, m, sig)
  }

  ghost predicate SectionsFinish(c: Config, run: seq<nat>, m: seq<nat>, sig: seq<nat>)
  {
    match Exec(Sections.Next(c), Sections.Init(c), run)
    case None => false
    case Some(a) => FinishedSections(c, a) && a.m == m && a.sig == sig
  }

  predicate FinishedSections(c: Config, a: Sections.State)
  {
    && Sections.Sized(c, a)
    && forall t :: 1 <= t <= c.procs ==> a.threads[t] == Sections.Thread(c.maxLoop, Sections.First)
  }

  ghost predicate IsSectionsResult(c: Config, m: seq<nat>, sig: seq<nat>)
  {
    exists run :: SectionsFinish(c, run, m, sig)
  }

  ghost predicate SameLockOrder(c: Config, a: seq<nat>, b: seq<nat>)
  {
    && Exec(Next(c), Init(c), a).Some? && Exec(Next(c), Init(c), b).Some?
    && forall l :: 0 <= l < c.locks ==> LockLog(c, Init(c), a, l) == LockLog(c, Init(c), b, l)
  }

  /** Even cut short, runs that agree on the lock order agree once their open sections end. */
  lemma LockOrderDeterminesCompletion(c: Config, a: seq<nat>, b: seq<nat>)
    requires SameLockOrder(c, a, b)
    ensures var sa, sb := Exec(Next(c), Init(c), a).value, Exec(Next(c), Init(c), b).value;
            Sized(c, sa) && Sized(c, sb) && Completed(c, sa) == Completed(c, sb)
  {
    InitInv(c);
    RunIsSections(c, Init(c), a);
    RunIsSections(c, Init(c), b);
    var ga, gb := Grants(c, Init(c), a), Grants(c, Init(c), b);
    forall l | 0 <= l < c.locks
      ensures Sections.LockLog(c, Sections.Init(c), ga, l) == Sections.LockLog(c, Sections.Init(c), gb, l)
    {
      assert LockLog(c, Init(c), a, l) == LockLog(c, Init(c), b, l);
    }
    Sections.LogsDetermineState(c, Sections.Init(c), ga, gb);
  }

  /** The only race is the one for the locks. */
  lemma LockOrderDeterminesResult(c: Config, a: seq<nat>, b: seq<nat>)
    requires SameLockOrder(c, a, b)
    requires AllDone(c, Exec(Next(c), Init(c), a).value) && AllDone(c, Exec(Next(c), Init(c), b).value)
    ensures var sa, sb := Exec(Next(c), Init(c), a).value, Exec(Next(c), Init(c), b).value;
            sa.m == sb.m && sa.sig == sb.sig && Signature(sa.sig, c.procs) == Signature(sb.sig, c.procs)
  {
    InitInv(c);
    RunKeepsInv(c, Init(c), a);
    RunKeepsInv(c, Init(c), b);
    LockOrderDeterminesCompletion(c, a, b);
    DoneIsCompleted(c, Exec(Next(c), Init(c), a).value);
    DoneIsCompleted(c, Exec(Next(c), Init(c), b).value);
  }

  // ----- Reduction: the results are exactly those of whole sections

  lemma ResultIsSectionsResult(c: Config, run: seq<nat>, m: seq<nat>, sig: seq<nat>)
    requires Finishes(c, run, m, sig)
    ensures SectionsFinish(c, Grants(c, Init(c), run), m, sig)
  {
    InitInv(c);
    RunKeepsInv(c, Init(c), run);
    RunIsSections(c, Init(c), run);
    DoneIsCompleted(c, Exec(Next(c), Init(c), run).value);
  }

  /** Every thread is past the barrier and between two sections. */
  ghost predicate Settled(c: Config, s: State)
  {
    && Inv(c, s)
    && (forall l :: 0 <= l < c.locks ==> s.holder[l] == None)
    && (forall t :: 1 <= t <= c.procs ==> s.threads[t].pc in {Top, Lock2})
  }

  /** What one more step of `t` does to the locks and to the control of `t`. */
  ghost predicate MovedOn(c: Config, s: State, s': State, t: nat)
    requires Moves(c, s, t) && Sized(c, s')
  {
    var th, th', l := s.threads[t], s'.threads[t], s.threads[t].index % c.locks;
    && (forall u :: 0 <= u <= c.procs && u != t ==> s'.threads[u] == s.threads[u])
    && (th.pc !in {Top, Unlock1} ==> th'.index == th.index)
    && s'.holder == (if AsksForLock(th.pc) then s.holder[l := Some(t)]
                     else if th.pc in {Unlock1, Unlock2} then s.holder[l := None]
                     else s.holder)
    && match th.pc
       case Top => if th.i < c.maxLoop then th'.pc == Lock1
                   else th' == th.(pc := Done) && s'.m == s.m && s'.sig == s.sig
       case Lock1 => th'.pc == Read1
       case Read1 => th'.pc == Unlock1
       case Unlock1 => th'.pc == Lock2
       case Lock2 => th'.pc == Read2
       case Read2 => th'.pc == Write2
       case Write2 => th'.pc == Unlock2
       case Unlock2 => th'.pc == Store
       case Store => th'.pc == Top
       case _ => true
  }

  /** One more step of `t` at the end of a run. */
  lemma MoveOn(c: Config, s: State, t: nat, s1: State, run: seq<nat>) returns (s2: State, run2: seq<nat>)
    requires Exec(Next(c), s, run) == Some(s1) && Inv(c, s1) && Moves(c, s1, t)
    ensures Exec(Next(c), s, run2) == Some(s2) && Inv(c, s2) && MovedOn(c, s1, s2, t)
    ensures var a := Completed(c, s1);
            if AsksForLock(s1.threads[t].pc) then
              Sections.Moves(c, a, t) && Completed(c, s2) == Sections.Step(c, a, t)
            else Completed(c, s2) == a
  {
    s2, run2 := Step(c, s1, t), run + [t];
    ExecAppend(Next(c), s, run, [t]);
    ExecOne(Next(c), s1, t);
    StepKeepsInv(c, s1, t);
    StepIsSectionOrNothing(c, s1, t);
  }

  /** The first section up to its load of m[]; every other thread stays where it was. */
  lemma FirstSectionLoad(c: Config, s: State, t: nat) returns (run: seq<nat>, s': State)
    requires Settled(c, s) && 1 <= t <= c.procs && s.threads[t].pc == Top && s.threads[t].i < c.maxLoop
    ensures Exec(Next(c), s, run) == Some(s') && Inv(c, s')
    ensures s'.threads[t].pc == Unlock1 && s'.holder == s.holder[s'.threads[t].index % c.locks := Some(t)]
    ensures forall u :: 0 <= u <= c.procs && u != t ==> s'.threads[u] == s.threads[u]
    ensures Sections.Moves(c, Completed(c, s), t) && Completed(c, s') == Sections.Step(c, Completed(c, s), t)
  {
    hide ThreadInv;
    hide LockInv;
    hide Completed;
    hide Sections.Step;
    hide Sections.Moves;
    var s1, r1 := MoveOn(c, s, t, s, []);
    var s2, r2 := MoveOn(c, s, t, s1, r1);
    s', run := MoveOn(c, s, t, s2, r2);
  }

  lemma FirstSection(c: Config, s: State, t: nat) returns (run: seq<nat>, s': State)
    requires Settled(c, s) && 1 <= t <= c.procs && s.threads[t].pc == Top && s.threads[t].i < c.maxLoop
    ensures Exec(Next(c), s, run) == Some(s') && Settled(c, s')
    ensures Sections.Moves(c, Completed(c, s), t) && Completed(c, s') == Sections.Step(c, Completed(c, s), t)
  {
    hide ThreadInv;
    hide LockInv;
    hide Completed;
    hide Sections.Step;
    hide Sections.Moves;
    var r3, s3 := FirstSectionLoad(c, s, t);
    s', run := MoveOn(c, s, t, s3, r3);
    assert s'.holder == s.holder;
  }

  /** The second section up to its store of m[]; every other thread stays where it was. */
  lemma SecondSectionStore(c: Config, s: State, t: nat) returns (run: seq<nat>, s': State)
    requires Settled(c, s) && 1 <= t <= c.procs && s.threads[t].pc == Lock2
    ensures Exec(Next(c), s, run) == Some(s') && Inv(c, s')
    ensures s'.threads[t].pc == Unlock2 && s'.threads[t].index == s.threads[t].index
    ensures s'.holder == s.holder[s.threads[t].index % c.locks := Some(t)]
    ensures forall u :: 0 <= u <= c.procs && u != t ==> s'.threads[u] == s.threads[u]
    ensures Sections.Moves(c, Completed(c, s), t) && Completed(c, s') == Sections.Step(c, Completed(c, s), t)
  {
    hide ThreadInv;
    hide LockInv;
    hide Completed;
    hide Sections.Step;
    hide Sections.Moves;
    var s1, r1 := MoveOn(c, s, t, s, []);
    var s2, r2 := MoveOn(c, s, t, s1, r1);
    s', run := MoveOn(c, s, t, s2, r2);
  }

  lemma SecondSection(c: Config, s: State, t: nat) returns (run: seq<nat>, s': State)
    requires Settled(c, s) && 1 <= t <= c.procs && s.threads[t].pc == Lock2
    ensures Exec(Next(c), s, run) == Some(s') && Settled(c, s')
    ensures Sections.Moves(c, Completed(c, s), t) && Completed(c, s') == Sections.Step(c, Completed(c, s), t)
  {
    hide ThreadInv;
    hide LockInv;
    hide Completed;
    hide Sections.Step;
    hide Sections.Moves;
    var r3, s3 := SecondSectionStore(c, s, t);
    var s4, r4 := MoveOn(c, s, t, s3, r3);
    s', run := MoveOn(c, s, t, s4, r4);
    assert s'.holder == s.holder;
  }

  lemma SettledStep(c: Config, s: State, t: nat) returns (run: seq<nat>, s': State)
    requires Settled(c, s) && Sections.Moves(c, Completed(c, s), t)
    ensures Exec(Next(c), s, run) == Some(s')
    ensures Settled(c, s') && Completed(c, s') == Sections.Step(c, Completed(c, s), t)
  {
    if s.threads[t].pc == Top {
      run, s' := FirstSection(c, s, t);
    } else {
      run, s' := SecondSection(c, s, t);
    }
  }

  lemma {:induction false} SettledRun(c: Config, s: State, sections: seq<nat>) returns (run: seq<nat>, s': State)
    requires Settled(c, s) && Exec(Sections.Next(c), Completed(c, s), sections).Some?
    ensures Exec(Next(c), s, run) == Some(s') && Settled(c, s')
    ensures Completed(c, s') == Exec(Sections.Next(c), Completed(c, s), sections).value
    decreases |sections|
  {
    if sections == [] {
      run, s' := [], s;
    } else {
      var run1, s1 := SettledStep(c, s, sections[0]);
      var run2, s2 := SettledRun(c, s1, sections[1..]);
      run, s' := run1 + run2, s2;
      ExecAppend(Next(c), s, run1, run2);
    }
  }

  /** The first `n` threads have reached the barrier. */
  function Arrived(c: Config, n: nat): State
    requires n <= c.procs
  {
    Init(c).(arrived := n,
             threads := seq(c.procs + 1, t => Thread(if 1 <= t <= n then Wait else Arrive, 0, 0, 0)))
  }

  /** All threads have reached the barrier and the first `n` have left it. */
  function Passed(c: Config, n: nat): State
    requires n <= c.procs
  {
    Init(c).(arrived := c.procs,
             threads := seq(c.procs + 1, t => Thread(if t == 0 then Arrive else if t <= n then Top else Wait, 0, 0, 0)))
  }

  lemma {:induction false} ArrivedRun(c: Config, n: nat) returns (run: seq<nat>)
    requires n <= c.procs
    ensures Exec(Next(c), Init(c), run) == Some(Arrived(c, n))
  {
    if n == 0 {
      run := [];
      assert Arrived(c, 0).threads == Init(c).threads;
    } else {
      var before := ArrivedRun(c, n - 1);
      run := before + [n];
      ExecAppend(Next(c), Init(c), before, [n]);
      ExecOne(Next(c), Arrived(c, n - 1), n);
      assert Step(c, Arrived(c, n - 1), n).threads == Arrived(c, n).threads;
    }
  }

  lemma {:induction false} PassedRun(c: Config, n: nat) returns (run: seq<nat>)
    requires n <= c.procs
    ensures Exec(Next(c), Init(c), run) == Some(Passed(c, n))
  {
    if n == 0 {
      run := ArrivedRun(c, c.procs);
      assert Passed(c, 0).threads == Arrived(c, c.procs).threads;
    } else {
      var before := PassedRun(c, n - 1);
      run := before + [n];
      ExecAppend(Next(c), Init(c), before, [n]);
      ExecOne(Next(c), Passed(c, n - 1), n);
      assert Step(c, Passed(c, n - 1), n).threads == Passed(c, n).threads;
    }
  }

  lemma PassedIsSettled(c: Config)
    ensures Settled(c, Passed(c, c.procs)) && Completed(c, Passed(c, c.procs)) == Sections.Init(c)
  {
    var s := Passed(c, c.procs);
    assert forall t :: 1 <= t <= c.procs ==> ThreadInv(c, s, t);
    SameState(Completed(c, s), Sections.Init(c));
  }

  /** Once their loops are over, the threads leave them one after the other. */
  lemma {:induction false} LeaveLoops(c: Config, s: State, n: nat) returns (run: seq<nat>, s': State)
    requires n <= c.procs && Inv(c, s)
    requires forall t :: 1 <= t <= n ==> s.threads[t].pc == Top && s.threads[t].i == c.maxLoop
    ensures Exec(Next(c), s, run) == Some(s') && Inv(c, s') && s'.m == s.m && s'.sig == s.sig
    ensures forall t :: 1 <= t <= c.procs ==>
              s'.threads[t] == if t <= n then s.threads[t].(pc := Done) else s.threads[t]
  {
    if n == 0 {
      run, s' := [], s;
    } else {
      var before, s1 := LeaveLoops(c, s, n - 1);
      s', run := MoveOn(c, s, n, s1, before);
    }
  }

  lemma SettledAndFinished(c: Config, s: State)
    requires Settled(c, s) && FinishedSections(c, Completed(c, s))
    ensures Completed(c, s).m == s.m && Completed(c, s).sig == s.sig
    ensures forall t :: 1 <= t <= c.procs ==> s.threads[t].pc == Top && s.threads[t].i == c.maxLoop
  {
    var a := Completed(c, s);
    forall t | 1 <= t <= c.procs
      ensures s.threads[t].pc == Top && s.threads[t].i == c.maxLoop
    {
      assert a.threads[t] == Sections.Thread(c.maxLoop, Sections.First);
    }
    forall k | 0 <= k < c.elems
      ensures a.m[k] == s.m[k]
    {
      assert s.holder[k % c.locks] == None;
    }
  }

  lemma SectionsResultIsResult(c: Config, sections: seq<nat>, m: seq<nat>, sig: seq<nat>)
    requires SectionsFinish(c, sections, m, sig)
    ensures IsResult(c, m, sig)
  {
    PassedIsSettled(c);
    var run0 := PassedRun(c, c.procs);
    var run1, s1 := SettledRun(c, Passed(c, c.procs), sections);
    SettledAndFinished(c, s1);
    var run2, s2 := LeaveLoops(c, s1, c.procs);
    ExecAppend(Next(c), Init(c), run0, run1);
    ExecAppend(Next(c), Init(c), run0 + run1, run2);
    assert AllDone(c, s2);
    assert Finishes(c, run0 + run1 + run2, m, sig);
  }

  /** Reduction: interleaved steps and atomic sections have the same results. */
  lemma Reduction(c: Config, m: seq<nat>, sig: seq<nat>)
    ensures IsResult(c, m, sig) <==> IsSectionsResult(c, m, sig)
  {
    if IsResult(c, m, sig) {
      var run :| Finishes(c, run, m, sig);
      ResultIsSectionsResult(c, run, m, sig);
    }
    if IsSectionsResult(c, m, sig) {
      var run :| SectionsFinish(c, run, m, sig);
      SectionsResultIsResult(c, run, m, sig);
    }
  }

  // ----- The lock order does matter

  /** Two threads with one iteration each; MAX_ELEM and NLOCK are those of the program. */
  const TWO_THREADS: Config := Config(2, 1, 64, 8)

  /** The numbers that two threads meet: both store to element 8, and whoever comes second loads what is stored. */
  lemma NumbersOfTwo()
    ensures Mix(1, 1) == 923165 && Mix(2, 2) == 1846330 && Mix(8, 8) == 7385320
    ensures Mix(1, 923165) == 100302216 && Mix(2, 1846330) == 28526856
    ensures Mix(100302216, 7385320) == 7393633 && Mix(28526856, 7385320) == 38690516
    ensures Mix(28526856, 7393633) == 27215495 && Mix(100302216, 38690516) == 23375252
  {
    hide Mix;
    MixIs(1, 1, 0, 1, 923165);
    MixIs(2, 2, 0, 2, 1846330);
    MixIs(8, 8, 0, 8, 7385320);
    MixIs(1, 923165, 22352, 36, 100302216);
    MixIs(2, 1846330, 44705, 32, 28526856);
    MixIs(100302216, 7385320, 178823, 5, 7393633);
    MixIs(28526856, 7385320, 178823, 4, 38690516);
    MixIs(28526856, 7393633, 179024, 16, 27215495);
    MixIs(100302216, 38690516, 936825, 32, 23375252);
  }

  /** `a` has both its sections before `b` has any. */
  lemma OneAfterTheOther(a: nat, b: nat, x: nat, y: nat)
    requires (a == 1 && b == 2) || (a == 2 && b == 1)
    requires var m := InitialElements(64);
             && Mix(a, m[a]) % 64 == 8 == Mix(b, m[b]) % 64
             && x == Mix(Mix(a, m[a]), m[8]) && y == Mix(Mix(b, m[b]), x)
    ensures IsResult(TWO_THREADS, InitialElements(64)[8 := y], InitialSig(2)[a := x][b := y])
  {
    hide Mix;
    var c, s0 := TWO_THREADS, Sections.Init(TWO_THREADS);
    var s1 := Sections.Step(c, s0, a);
    var s2 := Sections.Step(c, s1, a);
    var s3 := Sections.Step(c, s2, b);
    var s4 := Sections.Step(c, s3, b);
    ExecOne(Sections.Next(c), s3, b);
    ExecCons(Sections.Next(c), s2, b, [b]);
    ExecCons(Sections.Next(c), s1, a, [b, b]);
    ExecCons(Sections.Next(c), s0, a, [a, b, b]);
    var m, sig := InitialElements(64)[8 := y], InitialSig(2)[a := x][b := y];
    assert s4.m == m && s4.sig == sig;
    assert SectionsFinish(c, [a, a, b, b], m, sig);
    SectionsResultIsResult(c, [a, a, b, b], m, sig);
  }

  /** The race for the locks is a real one: two orders, two signatures. */
  lemma LockOrderMatters()
    ensures IsResult(TWO_THREADS, InitialElements(64)[8 := 27215495], [0, 7393633, 27215495])
    ensures IsResult(TWO_THREADS, InitialElements(64)[8 := 23375252], [0, 23375252, 38690516])
    ensures Signature([0, 7393633, 27215495], 2) != Signature([0, 23375252, 38690516], 2)
  {
    hide Mix;
    hide IsResult;
    hide Signature;
    NumbersOfTwo();
    OneAfterTheOther(1, 2, 7393633, 27215495);
    OneAfterTheOther(2, 1, 38690516, 23375252);
    assert InitialSig(2)[1 := 7393633][2 := 27215495] == [0, 7393633, 27215495];
    assert InitialSig(2)[2 := 38690516][1 := 23375252] == [0, 23375252, 38690516];
    SignatureOfTwo(7393633, 27215495);
    SignatureOfTwo(23375252, 38690516);
  }

  /** With two threads the signature is what mix makes of sig[1] and sig[0], which is 0. */
  lemma SignatureOfTwo(a: nat, b: nat)
    requires a < PRIME1
    ensures Signature([0, a, b], 2) == a
  {
    MixIs(a, 0, 0, 0, a);
    hide Mix;
    assert Signature([0, a, b], 1) == 0;
  }

  // ----- Refinement: with its lock steps erased, a run is one of the unguarded loop

  function Erased(c: Config, th: Thread): SharedLoop.Thread
  {
    match th.pc
    case Arrive | Wait | Top => SharedLoop.Thread(SharedLoop.Top, th.i, th.num, th.index)
    case Lock1 | Read1 => SharedLoop.Thread(SharedLoop.Read1, th.i, th.num, th.index)
    case Unlock1 => SharedLoop.Thread(SharedLoop.Read2, th.i, th.num, th.num % c.elems)
    case Lock2 | Read2 => SharedLoop.Thread(SharedLoop.Read2, th.i, th.num, th.index)
    case Write2 => SharedLoop.Thread(SharedLoop.Write, th.i, th.num, th.index)
    case Unlock2 | Store => SharedLoop.Thread(SharedLoop.Store, th.i, th.num, th.index)
    case Done => SharedLoop.Thread(SharedLoop.Done, th.i, th.num, th.index)
  }

  function EraseLocks(c: Config, s: State): SharedLoop.State
  {
    SharedLoop.State(s.m, s.sig, seq(|s.threads|, t requires 0 <= t < |s.threads| => Erased(c, s.threads[t])))
  }

  predicate IsLoopStep(pc: Pc) { pc in {Top, Read1, Read2, Write2, Store} }

  function LoopSteps(c: Config, s: State, run: seq<nat>): seq<nat>
    requires Exec(Next(c), s, run).Some?
    decreases |run|
  {
    if run == [] then []
    else
      var rest := LoopSteps(c, Step(c, s, run[0]), run[1..]);
      if IsLoopStep(s.threads[run[0]].pc) then [run[0]] + rest else rest
  }

  lemma EraseStep(c: Config, s: State, t: nat)
    requires Moves(c, s, t)
    ensures var e, e' := EraseLocks(c, s), EraseLocks(c, Step(c, s, t));
            if IsLoopStep(s.threads[t].pc) then SharedLoop.Moves(c, e, t) && e' == SharedLoop.Step(c, e, t)
            else e' == e
  {
    var e, e' := EraseLocks(c, s), EraseLocks(c, Step(c, s, t));
    if IsLoopStep(s.threads[t].pc) {
      var x := SharedLoop.Step(c, e, t);
      assert e'.threads == x.threads && e'.m == x.m && e'.sig == x.sig;
    } else {
      assert e'.threads == e.threads;
    }
  }

  lemma {:induction false} EraseRun(c: Config, s: State, run: seq<nat>)
    requires Exec(Next(c), s, run).Some?
    ensures Exec(SharedLoop.Next(c), EraseLocks(c, s), LoopSteps(c, s, run))
         == Some(EraseLocks(c, Exec(Next(c), s, run).value))
    decreases |run|
  {
    if run != [] {
      EraseStep(c, s, run[0]);
      var s1 := Step(c, s, run[0]);
      EraseRun(c, s1, run[1..]);
      if IsLoopStep(s.threads[run[0]].pc) {
        ExecCons(SharedLoop.Next(c), EraseLocks(c, s), run[0], LoopSteps(c, s1, run[1..]));
      }
    }
  }

  /** Locks only take results away: a guarded result is a result of the unguarded loop. */
  lemma GuardedRefinesLoop(c: Config, m: seq<nat>, sig: seq<nat>)
    requires IsResult(c, m, sig)
    ensures SharedLoop.IsResult(c, m, sig)
  {
    var run :| Finishes(c, run, m, sig);
    EraseRun(c, Init(c), run);
    assert EraseLocks(c, Init(c)).threads == SharedLoop.Init(c).threads;
    assert SharedLoop.Finishes(c, LoopSteps(c, Init(c), run), m, sig);
  }
}
