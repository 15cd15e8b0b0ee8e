/**
 racey-futex.c: whatever the rules and the picks, a thread has always made as many iterations as its
 loop variable says, and returns after MaxLoop of them.
 */
module FutexIterations {
  import opened Mixing
  import opened Runs
  import opened Shared
  import opened FutexGroup
  import R = FutexRounds
  import opened FutexProgram

  /** How often the thread of `l` stores the result of an iteration in a run from `s`. */
  ghost function IterationsMade(r: R.Rules, p: Setup, s: State, run: seq<Who>, l: Who): nat
    requires Exec(Next(r, p), s, run).Some?
    decreases |run|
  {
    if run == [] then 0
    else (if Completes(p, s, run[0], l) then 1 else 0)
         + IterationsMade(r, p, Next(r, p)(s, run[0]).value, run[1..], l)
  }

  /** The move of `x` is the one that ends an iteration of the thread of `l`. */
  predicate Completes(p: Setup, s: State, x: Who, l: Who)
  {
    && x == l && Sized(p, s) && l.g < NFUTEX && l.t < SLOTS
    && IsWorking(p, s, l) && s.work[l.t].pc == Store
  }

  predicate IsThread(p: Setup, l: Who)
  {
    l.g < NFUTEX && R.IsMember(GroupConfig(p, l.g), l.t)
  }

  /** The iterations of the thread of `l` according to its loop variable, those of its batch included. */
  function Done(p: Setup, s: State, l: Who): int
    requires Sized(p, s) && IsThread(p, l)
  {
    var m := s.groups[l.g].members[l.t];
    p.maxLoop - m.left + if m.pc == R.Batch then s.work[l.t].k else 0
  }

  predicate Inv(p: Setup, s: State, l: Who)
    requires IsThread(p, l)
  {
    && Sized(p, s)
    && var m, w := s.groups[l.g].members[l.t], s.work[l.t];
    && m.left <= p.maxLoop
    && (m.pc == R.Returned ==> m.left == 0)
    && (m.pc != R.Batch ==> w == NO_WORK)
    && w.k <= BatchLength(p, m.left) && (m.pc == R.Batch && w.pc != Test ==> w.k < BatchLength(p, m.left))
  }

  lemma InitInv(p: Setup, l: Who)
    requires IsThread(p, l)
    ensures Inv(p, Init(p), l) && Done(p, Init(p), l) == 0
  {
    hide BatchSize;
    InitGroups(p, l.g);
  }

  lemma WorkKeepsInv(r: R.Rules, p: Setup, s: State, x: Who, l: Who)
    requires IsThread(p, l) && Inv(p, s, l) && Moves(r, p, s, x) && IsWorking(p, s, x)
    ensures var s' := Step(r, p, s, x);
            Inv(p, s', l) && Done(p, s', l) == Done(p, s, l) + if Completes(p, s, x, l) then 1 else 0
  {
    hide Mix;
    hide BatchSize;
    hide R.Step;
    StepKeepsSized(r, p, s, x);
    if x.t == l.t {
      OneGroup(r, p, s, x, l);
    }
  }

  /** The thread moves in one group only. */
  lemma OneGroup(r: R.Rules, p: Setup, s: State, x: Who, l: Who)
    requires IsThread(p, l) && Moves(r, p, s, x) && x.t == l.t
    ensures x == l
  {
    assert InGroup(p.procs, x.g, x.t) && InGroup(p.procs, l.g, l.t);
    GroupsDisjoint(p.procs, x.g, l.g, l.t);
  }

  lemma MemberStep(r: R.Rules, c: R.Config, g: R.State, t: nat, sig: nat, u: nat)
    requires R.Moves(r, c, g, t) && u < SLOTS
    ensures var g' := R.Step(r, c, g, t, sig);
            var m, m' := g.members[u], g'.members[u];
            && |g'.members| == SLOTS && (m'.pc == R.Batch ==> (m.pc == R.Batch && u != t) || (m.pc == R.Round && u == t))
            && (m.pc == R.Batch && u != t ==> m'.pc == R.Batch)
            && (m'.pc == R.Returned ==> m.pc == R.Returned || m'.left == 0)
            && m'.left == if u == t && m.pc == R.Batch
                          then (if m.left <= BatchSize(c.maxLoop) then 0 else m.left - BatchSize(c.maxLoop))
                          else m.left
  {
    hide Pick;
    hide StartOf;
    hide LeaderOf;
    hide BatchSize;
  }

  lemma RoundKeepsInv(r: R.Rules, p: Setup, s: State, x: Who, l: Who)
    requires IsThread(p, l) && Inv(p, s, l) && Moves(r, p, s, x) && !IsWorking(p, s, x)
    ensures var s' := Step(r, p, s, x);
            Inv(p, s', l) && Done(p, s', l) == Done(p, s, l)
  {
    hide BatchSize;
    hide R.Step;
    StepKeepsSized(r, p, s, x);
    if x.g == l.g {
      MemberStep(r, GroupConfig(p, x.g), s.groups[x.g], x.t, s.sig[x.t], l.t);
    } else if x.t == l.t {
      OneGroup(r, p, s, x, l);
    }
  }

  lemma {:induction false} RunKeepsInv(r: R.Rules, p: Setup, s: State, run: seq<Who>, l: Who)
    requires IsThread(p, l) && Inv(p, s, l) && Exec(Next(r, p), s, run).Some?
    ensures var s' := Exec(Next(r, p), s, run).value;
            Inv(p, s', l) && Done(p, s', l) == Done(p, s, l) + IterationsMade(r, p, s, run, l)
    decreases |run|
  {
    hide Step;
    hide Inv;
    hide Done;
    if run != [] {
      if IsWorking(p, s, run[0]) {
        WorkKeepsInv(r, p, s, run[0], l);
      } else {
        RoundKeepsInv(r, p, s, run[0], l);
      }
      RunKeepsInv(r, p, Step(r, p, s, run[0]), run[1..], l);
    }
  }

  /** In every run, rules or not: a thread that has returned has made exactly MaxLoop iterations. */
  lemma IterationsAreExact(r: R.Rules, p: Setup, run: seq<Who>, l: Who)
    requires IsThread(p, l) && Exec(Next(r, p), Init(p), run).Some?
    ensures var s := Exec(Next(r, p), Init(p), run).value;
            && Sized(p, s)
            && var m, n := s.groups[l.g].members[l.t], IterationsMade(r, p, Init(p), run, l);
            && n == p.maxLoop - m.left + (if m.pc == R.Batch then s.work[l.t].k else 0) <= p.maxLoop
            && (m.pc == R.Returned ==> n == p.maxLoop)
  {
    hide Exec;
    hide Init;
    hide IterationsMade;
    hide BatchSize;
    InitInv(p, l);
    RunKeepsInv(r, p, Init(p), run, l);
  }
}
