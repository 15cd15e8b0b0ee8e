/**
 racey-guarded.c, one lock, load, store or unlock at a time.

 The reduction to whole critical sections maps a state to the one in which every section in
 progress has been run to its end: its element is private to the lock holder, so the outcome
 is already settled when the lock is granted.
 */
module Guarded {
  import opened Mixing
  import opened Runs
  import opened Shared
  import Sections

  datatype Pc = Arrive | Wait | Top | Lock1 | Read1 | Unlock1 | Lock2 | Read2 | Write2 | Unlock2 | Store | Done

  /** `index` is index1 in the first section and index2 in the second. */
  datatype Thread = Thread(pc: Pc, i: nat, num: nat, index: nat)

  /** `holder[l]` is the thread that owns locks[l]; `arrived` counts entries to the barrier. */
  datatype State = State(m: seq<nat>, sig: seq<nat>, holder: seq<Option<nat>>, arrived: nat, threads: seq<Thread>)

  function Init(c: Config): State
  {
    State(InitialElements(c.elems), InitialSig(c.procs), seq(c.locks, _ => None), 0,
          seq(c.procs + 1, _ => Thread(Arrive, 0, 0, 0)))
  }

  predicate Sized(c: Config, s: State)
  {
    && |s.m| == c.elems && |s.sig| == |s.threads| == c.procs + 1 && |s.holder| == c.locks
    && forall t :: 0 <= t <= c.procs ==> s.threads[t].index < c.elems
  }

  predicate InSection(pc: Pc) { pc in {Read1, Unlock1, Read2, Write2, Unlock2} }

  predicate AsksForLock(pc: Pc) { pc in {Lock1, Lock2} }

  predicate Moves(c: Config, s: State, t: nat)
  {
    && Sized(c, s) && 1 <= t <= c.procs
    && var th := s.threads[t];
    && th.pc != Done
    && (th.pc == Wait ==> s.arrived == c.procs)
    && (AsksForLock(th.pc) ==> s.holder[th.index % c.locks] == None)
  }

  function Step(c: Config, s: State, t: nat): (s': State)
    requires Moves(c, s, t)
    ensures Sized(c, s')
  {
    var th := s.threads[t];
    var l := th.index % c.locks;
    match th.pc
    case Arrive =>
      s.(arrived := s.arrived + 1, threads := s.threads[t := th.(pc := Wait)])
    case Wait =>
      s.(threads := s.threads[t := th.(pc := Top)])
    case Top =>
      var num := s.sig[t];
      s.(threads := s.threads[t := if th.i < c.maxLoop then Thread(Lock1, th.i, num, num % c.elems)
                                   else th.(pc := Done)])
    case Lock1 =>
      s.(holder := s.holder[l := Some(t)], threads := s.threads[t := th.(pc := Read1)])
    case Read1 =>
      s.(threads := s.threads[t := th.(pc := Unlock1, num := Mix(th.num, s.m[th.index]))])
    case Unlock1 =>
      s.(holder := s.holder[l := None],
         threads := s.threads[t := Thread(Lock2, th.i, th.num, th.num % c.elems)])
    case Lock2 =>
      s.(holder := s.holder[l := Some(t)], threads := s.threads[t := th.(pc := Read2)])
    case Read2 =>
      s.(threads := s.threads[t := th.(pc := Write2, num := Mix(th.num, s.m[th.index]))])
    case Write2 =>
      s.(m := s.m[th.index := th.num], threads := s.threads[t := th.(pc := Unlock2)])
    case Unlock2 =>
      s.(holder := s.holder[l := None], threads := s.threads[t := th.(pc := Store)])
    case Store =>
      s.(sig := s.sig[t := th.num], threads := s.threads[t := th.(pc := Top, i := th.i + 1)])
  }

  function Next(c: Config): (State, nat) -> Option<State>
  {
    (s: State, t: nat) => if Moves(c, s, t) then Some(Step(c, s, t)) else None
  }

  predicate AllDone(c: Config, s: State)
  {
    Sized(c, s) && forall t :: 1 <= t <= c.procs ==> s.threads[t].pc == Done
  }

  // ----- Locks are granted to threads

  /** The threads that locks are granted to, in order, whatever the lock. */
  function Grants(c: Config, s: State, run: seq<nat>): seq<nat>
    requires Exec(Next(c), s, run).Some?
    decreases |run|
  {
    if run == [] then []
    else
      var rest := Grants(c, Step(c, s, run[0]), run[1..]);
      if AsksForLock(s.threads[run[0]].pc) then [run[0]] + rest else rest
  }

  /** The threads that lock `l` is granted to, in order. */
  function LockLog(c: Config, s: State, run: seq<nat>, l: nat): seq<nat>
    requires Exec(Next(c), s, run).Some?
    decreases |run|
  {
    if run == [] then []
    else
      var th := s.threads[run[0]];
      var rest := LockLog(c, Step(c, s, run[0]), run[1..], l);
      if AsksForLock(th.pc) && th.index % c.locks == l then [run[0]] + rest else rest
  }

  // ----- What every step keeps

  ghost predicate ThreadInv(c: Config, s: State, t: nat)
    requires Sized(c, s) && 1 <= t <= c.procs
  {
    var th := s.threads[t];
    && th.i <= c.maxLoop
    && (th.pc == Done ==> th.i == c.maxLoop)
    && (th.pc !in {Arrive, Wait, Top, Done} ==> th.i < c.maxLoop)
    && (th.pc in {Lock1, Read1} ==> th.num == s.sig[t] && th.index == th.num % c.elems)
    && (th.pc == Lock2 ==> th.index == th.num % c.elems)
    && (InSection(th.pc) ==> s.holder[th.index % c.locks] == Some(t))
  }

  ghost predicate LockInv(c: Config, s: State, l: nat)
    requires Sized(c, s) && l < c.locks
  {
    s.holder[l].Some? ==>
      && 1 <= s.holder[l].value <= c.procs
      && InSection(s.threads[s.holder[l].value].pc)
      && s.threads[s.holder[l].value].index % c.locks == l
  }

  ghost predicate Inv(c: Config, s: State)
  {
    && Sized(c, s) && s.threads[0].pc == Arrive
    && (forall t :: 1 <= t <= c.procs ==> ThreadInv(c, s, t))
    && (forall l :: 0 <= l < c.locks ==> LockInv(c, s, l))
  }

  lemma StepKeepsInv(c: Config, s: State, t: nat)
    requires Inv(c, s) && Moves(c, s, t)
    ensures Inv(c, Step(c, s, t))
  {
    var s' := Step(c, s, t);
    assert ThreadInv(c, s, t);
    forall u | 1 <= u <= c.procs
      ensures ThreadInv(c, s', u)
    {
      assert ThreadInv(c, s, u);
    }
    forall l | 0 <= l < c.locks
      ensures LockInv(c, s', l)
    {
      assert LockInv(c, s, l);
    }
  }

  lemma {:induction false} RunKeepsInv(c: Config, s: State, run: seq<nat>)
    requires Inv(c, s) && Exec(Next(c), s, run).Some?
    ensures Inv(c, Exec(Next(c), s, run).value)
    decreases |run|
  {
    if run != [] {
      StepKeepsInv(c, s, run[0]);
      RunKeepsInv(c, Step(c, s, run[0]), run[1..]);
    }
  }

  /** A step of `t` changes m[k], or has an effect elsewhere that depends on what m[k] is. */
  ghost predicate Touches(c: Config, s: State, t: nat, k: nat)
    requires Moves(c, s, t) && k < c.elems
  {
    || Step(c, s, t).m[k] != s.m[k]
    || exists x: nat :: DependsOn(c, s, t, k, x)
  }

  /** With m[k] replaced by `x` the step would have another outcome, apart from m[k] itself. */
  predicate DependsOn(c: Config, s: State, t: nat, k: nat, x: nat)
    requires Moves(c, s, t) && k < c.elems
  {
    var s2 := s.(m := s.m[k := x]);
    !Moves(c, s2, t) || Step(c, s2, t).(m := []) != Step(c, s, t).(m := [])
    || exists j :: 0 <= j < c.elems && j != k && Step(c, s2, t).m[j] != Step(c, s, t).m[j]
  }

  lemma TouchesUnderLock(c: Config, s: State, t: nat, k: nat)
    requires Inv(c, s) && Moves(c, s, t) && k < c.elems && Touches(c, s, t, k)
    ensures s.holder[k % c.locks] == Some(t)
  {
    hide Mix;
    assert ThreadInv(c, s, t);
    if x: nat :| DependsOn(c, s, t, k, x) {
      assert k == s.threads[t].index && InSection(s.threads[t].pc);
    }
  }

  /** No data race: m[k] is only loaded or stored by the holder of its lock, so never by two threads at once. */
  lemma NoDataRace(c: Config, run: seq<nat>, t: nat, u: nat, k: nat)
    requires Exec(Next(c), Init(c), run).Some? && k < c.elems
    requires var s := Exec(Next(c), Init(c), run).value; Moves(c, s, t) && Touches(c, s, t, k)
    ensures var s := Exec(Next(c), Init(c), run).value;
            && s.holder[k % c.locks] == Some(t)
            && (u != t && Moves(c, s, u) ==> !Touches(c, s, u, k))
  {
    hide Touches;
    RunKeepsInv(c, Init(c), run);
    var s := Exec(Next(c), Init(c), run).value;
    TouchesUnderLock(c, s, t, k);
    if u != t && Moves(c, s, u) && Touches(c, s, u, k) {
      TouchesUnderLock(c, s, u, k);
    }
  }

  // ----- Every section in progress, run to its end

  function CompletedElement(c: Config, s: State, k: nat): nat
    requires Sized(c, s) && k < c.elems
  {
    match s.holder[k % c.locks]
    case None => s.m[k]
    case Some(t) =>
      if t > c.procs || s.threads[t].index != k then s.m[k]
      else match s.threads[t].pc
        case Read2 => Mix(s.threads[t].num, s.m[k])
        case Write2 => s.threads[t].num
        case _ => s.m[k]
  }

  function CompletedNum(s: State, th: Thread): nat
  {
    if th.pc in {Read1, Read2} && th.index < |s.m| then Mix(th.num, s.m[th.index]) else th.num
  }

  function CompletedSig(s: State, t: nat): nat
    requires t < |s.threads| == |s.sig|
  {
    if s.threads[t].pc in {Read2, Write2, Unlock2, Store} then CompletedNum(s, s.threads[t]) else s.sig[t]
  }

  function CompletedThread(s: State, th: Thread): Sections.Thread
  {
    match th.pc
    case Read1 | Unlock1 | Lock2 => Sections.Thread(th.i, Sections.Second(CompletedNum(s, th)))
    case Read2 | Write2 | Unlock2 | Store => Sections.Thread(th.i + 1, Sections.First)
    case _ => Sections.Thread(th.i, Sections.First)
  }

  function Completed(c: Config, s: State): Sections.State
    requires Sized(c, s)
  {
    Sections.State(
      seq(c.elems, k requires 0 <= k < c.elems => CompletedElement(c, s, k)),
      seq(c.procs + 1, t requires 0 <= t <= c.procs => CompletedSig(s, t)),
      seq(c.procs + 1, t requires 0 <= t <= c.procs => CompletedThread(s, s.threads[t])))
  }

  lemma CompletedElementStep(c: Config, s: State, t: nat, k: nat)
    requires Inv(c, s) && Moves(c, s, t) && k < c.elems
    ensures CompletedElement(c, Step(c, s, t), k)
         == if s.threads[t].pc == Lock2 && k == s.threads[t].index then Mix(s.threads[t].num, s.m[k])
            else CompletedElement(c, s, k)
  {
    assert ThreadInv(c, s, t) && LockInv(c, s, k % c.locks);
  }

  lemma CompletedOtherStep(c: Config, s: State, t: nat, u: nat)
    requires Inv(c, s) && Moves(c, s, t) && u <= c.procs && u != t
    ensures var s' := Step(c, s, t);
            && CompletedSig(s', u) == CompletedSig(s, u)
            && CompletedThread(s', s'.threads[u]) == CompletedThread(s, s.threads[u])
  {
    assert ThreadInv(c, s, t) && (u == 0 || ThreadInv(c, s, u));
  }

  lemma CompletedOwnStep(c: Config, s: State, t: nat)
    requires Inv(c, s) && Moves(c, s, t)
    ensures var s', th := Step(c, s, t), s.threads[t];
            && CompletedSig(s', t)
               == (if th.pc == Lock2 then Mix(th.num, s.m[th.index]) else CompletedSig(s, t))
            && CompletedThread(s', s'.threads[t])
               == match th.pc
                  case Lock1 => Sections.Thread(th.i, Sections.Second(Mix(th.num, s.m[th.index])))
                  case Lock2 => Sections.Thread(th.i + 1, Sections.First)
                  case _ => CompletedThread(s, th)
  {
    assert ThreadInv(c, s, t);
  }

  /** A free lock means that no section is in progress on its elements. */
  lemma CompletedUnlocked(c: Config, s: State, t: nat)
    requires Inv(c, s) && Moves(c, s, t) && AsksForLock(s.threads[t].pc)
    ensures var a, th := Completed(c, s), s.threads[t];
            && Sections.Moves(c, a, t) && Sections.Target(c, a, t) == th.index
            && a.m[th.index] == s.m[th.index]
            && a.threads[t] == Sections.Thread(th.i, if th.pc == Lock1 then Sections.First else Sections.Second(th.num))
            && (th.pc == Lock1 ==> a.sig[t] == th.num)
  {
    assert ThreadInv(c, s, t);
  }

  /** Granting a lock completes one whole section; no other step changes the completed state. */
  lemma StepIsSectionOrNothing(c: Config, s: State, t: nat)
    requires Inv(c, s) && Moves(c, s, t)
    ensures var a := Completed(c, s);
            if AsksForLock(s.threads[t].pc) then
              && Sections.Moves(c, a, t)
              && Sections.LockOf(c, a, t) == s.threads[t].index % c.locks
              && Completed(c, Step(c, s, t)) == Sections.Step(c, a, t)
            else
              Completed(c, Step(c, s, t)) == a
  {
    var a, a' := Completed(c, s), Completed(c, Step(c, s, t));
    CompletedStep(c, s, t);
    CompletedOwnStep(c, s, t);
    if AsksForLock(s.threads[t].pc) {
      CompletedUnlocked(c, s, t);
      IsSectionStep(c, a, a', t);
    } else {
      SameState(a', a);
    }
  }

  lemma CompletedStep(c: Config, s: State, t: nat)
    requires Inv(c, s) && Moves(c, s, t)
    ensures var a, a' := Completed(c, s), Completed(c, Step(c, s, t));
            && (forall k :: 0 <= k < c.elems ==>
                 a'.m[k] == if s.threads[t].pc == Lock2 && k == s.threads[t].index
                            then Mix(s.threads[t].num, s.m[k]) else a.m[k])
            && (forall u :: 0 <= u <= c.procs && u != t ==>
                 a'.sig[u] == a.sig[u] && a'.threads[u] == a.threads[u])
  {
    forall k | 0 <= k < c.elems
      ensures CompletedElement(c, Step(c, s, t), k)
           == if s.threads[t].pc == Lock2 && k == s.threads[t].index then Mix(s.threads[t].num, s.m[k])
              else CompletedElement(c, s, k)
    {
      CompletedElementStep(c, s, t, k);
    }
    forall u | 0 <= u <= c.procs && u != t
      ensures CompletedSig(Step(c, s, t), u) == CompletedSig(s, u)
      ensures CompletedThread(Step(c, s, t), Step(c, s, t).threads[u]) == CompletedThread(s, s.threads[u])
    {
      CompletedOtherStep(c, s, t, u);
    }
  }

  lemma IsSectionStep(c: Config, a: Sections.State, a': Sections.State, t: nat)
    requires Sections.Moves(c, a, t) && Sections.Sized(c, a')
    requires forall u :: 0 <= u <= c.procs && u != t ==> a'.sig[u] == a.sig[u] && a'.threads[u] == a.threads[u]
    requires var th, k := a.threads[t], Sections.Target(c, a, t);
             match th.phase
             case First =>
               && (forall x :: 0 <= x < c.elems ==> a'.m[x] == a.m[x])
               && a'.sig[t] == a.sig[t]
               && a'.threads[t] == Sections.Thread(th.i, Sections.Second(Mix(a.sig[t], a.m[k])))
             case Second(num) =>
               && (forall x :: 0 <= x < c.elems ==> a'.m[x] == if x == k then Mix(num, a.m[k]) else a.m[x])
               && a'.sig[t] == Mix(num, a.m[k])
               && a'.threads[t] == Sections.Thread(th.i + 1, Sections.First)
    ensures a' == Sections.Step(c, a, t)
  {
    SameState(a', Sections.Step(c, a, t));
  }

  lemma SameState(a: Sections.State, b: Sections.State)
    requires |a.m| == |b.m| && |a.sig| == |b.sig| && |a.threads| == |b.threads|
    requires forall k :: 0 <= k < |a.m| ==> a.m[k] == b.m[k]
    requires forall t :: 0 <= t < |a.sig| ==> a.sig[t] == b.sig[t]
    requires forall t :: 0 <= t < |a.threads| ==> a.threads[t] == b.threads[t]
    ensures a == b
  {
    assert a.m == b.m && a.sig == b.sig && a.threads == b.threads;
  }

  /** The sections of a run, in the order in which their locks are granted. */
  lemma {:induction false} RunIsSections(c: Config, s: State, run: seq<nat>)
    requires Inv(c, s) && Exec(Next(c), s, run).Some?
    ensures var s' := Exec(Next(c), s, run).value;
            && Sized(c, s')
            && Exec(Sections.Next(c), Completed(c, s), Grants(c, s, run)) == Some(Completed(c, s'))
            && forall l :: 0 <= l < c.locks ==>
                 Sections.LockLog(c, Completed(c, s), Grants(c, s, run), l) == LockLog(c, s, run, l)
    decreases |run|
  {
    if run != [] {
      var t := run[0];
      var s1, a := Step(c, s, t), Completed(c, s);
      StepKeepsInv(c, s, t);
      StepIsSectionOrNothing(c, s, t);
      RunIsSections(c, s1, run[1..]);
      if AsksForLock(s.threads[t].pc) {
        var rest := Grants(c, s1, run[1..]);
        ExecCons(Sections.Next(c), a, t, rest);
        assert Grants(c, s, run)[1..] == rest;
      }
    }
  }

  lemma DoneIsCompleted(c: Config, s: State)
    requires Inv(c, s) && AllDone(c, s)
    ensures Completed(c, s).m == s.m && Completed(c, s).sig == s.sig
    ensures forall t :: 1 <= t <= c.procs ==> Completed(c, s).threads[t] == Sections.Thread(c.maxLoop, Sections.First)
  {
    forall k | 0 <= k < c.elems
      ensures CompletedElement(c, s, k) == s.m[k]
    {
      assert LockInv(c, s, k % c.locks);
    }
    forall t | 1 <= t <= c.procs
      ensures s.threads[t].i == c.maxLoop
    {
      assert ThreadInv(c, s, t);
    }
  }

  lemma InitInv(c: Config)
    ensures Inv(c, Init(c)) && Completed(c, Init(c)) == Sections.Init(c)
  {
    var s, a := Init(c), Completed(c, Init(c));
    assert forall t :: 1 <= t <= c.procs ==> ThreadInv(c, s, t);
    assert a.m == Sections.Init(c).m && a.sig == Sections.Init(c).sig && a.threads == Sections.Init(c).threads;
  }
}
