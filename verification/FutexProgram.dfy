/**
 racey-futex.c as a whole: the groups that main sets up, over the shared m[] and sig[].  Batches are
 executed one load or store at a time, and a pick uses the sig[] entry of the thread that picks.
 What each group does is a run of the protocol in FutexRounds.
 */
module FutexProgram {
  import opened Mixing
  import opened Runs
  import opened Shared
  import opened FutexGroup
  import opened Sums
  import R = FutexRounds
  import FutexSafety
  import FutexProgress
  import FutexConditions
  import SharedLoop
  import T = FutexTheorems

  /** Where a thread is in the loop of its batch; `k` counts the iterations of the batch. */
  datatype WorkPc = Test | Read1 | Read2 | Write | Store
  datatype Work = Work(k: nat, pc: WorkPc, num: nat, index: nat)

  const NO_WORK := Work(0, Test, 0, 0)

  datatype State = State(m: seq<nat>, sig: seq<nat>, work: seq<Work>, groups: seq<R.State>)

  /** Thread `t` of group `g` moves. */
  datatype Who = Who(g: nat, t: nat)

  function GroupConfig(p: Setup, g: nat): R.Config
    requires g < NFUTEX
  {
    GroupsFit(p.procs, g);
    R.Config(GroupBegin(p.procs, g), GroupBegin(p.procs, g + 1), p.maxLoop)
  }

  function Init(p: Setup): State
  {
    State(InitialElements(p.elems), InitialSig(32), seq(SLOTS, _ => NO_WORK),
          seq(NFUTEX, g requires 0 <= g < NFUTEX => R.Init(GroupConfig(p, g))))
  }

  predicate Sized(p: Setup, s: State)
  {
    && |s.m| == p.elems && |s.sig| == |s.work| == SLOTS && |s.groups| == NFUTEX
    && (forall t :: 0 <= t < SLOTS ==> s.work[t].index < p.elems)
    && (forall g :: 0 <= g < NFUTEX ==> |s.groups[g].members| == SLOTS)
  }

  predicate Moves(r: R.Rules, p: Setup, s: State, l: Who)
  {
    Sized(p, s) && l.g < NFUTEX && R.Moves(r, GroupConfig(p, l.g), s.groups[l.g], l.t)
  }

  /** `t` is in its batch, which is not over yet. */
  predicate IsWorking(p: Setup, s: State, l: Who)
    requires Sized(p, s) && l.g < NFUTEX && l.t < SLOTS
  {
    var w, m := s.work[l.t], s.groups[l.g].members[l.t];
    m.pc == R.Batch && (w.pc == Test ==> w.k < BatchSize(p.maxLoop) && w.k < m.left)
  }

  function WorkStep(p: Setup, s: State, t: nat): State
    requires Sized(p, s) && t < SLOTS
  {
    var w := s.work[t];
    match w.pc
    case Test =>
      var num := s.sig[t];
      s.(work := s.work[t := Work(w.k, Read1, num, num % p.elems)])
    case Read1 =>
      var num := Mix(w.num, s.m[w.index]);
      s.(work := s.work[t := Work(w.k, Read2, num, num % p.elems)])
    case Read2 =>
      s.(work := s.work[t := w.(pc := Write, num := Mix(w.num, s.m[w.index]))])
    case Write =>
      s.(m := s.m[w.index := w.num], work := s.work[t := w.(pc := Store)])
    case Store =>
      s.(sig := s.sig[t := w.num], work := s.work[t := w.(k := w.k + 1, pc := Test)])
  }

  /** A thread that returns from waiting on `owner` increments its sig[] entry. */
  function SigAfter(sig: seq<nat>, g: R.State, t: nat): (sig': seq<nat>)
    requires |sig| == |g.members| == SLOTS && t < SLOTS
    ensures |sig'| == SLOTS
  {
    match g.members[t].pc
    case WaitOwner => if g.owner == g.members[t].owner then sig else sig[t := U32(sig[t] + 1)]
    case WakeOne =>
      seq(SLOTS, u requires 0 <= u < SLOTS => if g.members[u].pc == R.AsleepOwner then U32(sig[u] + 1) else sig[u])
    case _ => sig
  }

  ghost function Step(r: R.Rules, p: Setup, s: State, l: Who): State
    requires Moves(r, p, s, l)
  {
    var g := s.groups[l.g];
    if IsWorking(p, s, l) then WorkStep(p, s, l.t)
    else State(s.m, SigAfter(s.sig, g, l.t), s.work[l.t := NO_WORK],
               s.groups[l.g := R.Step(r, GroupConfig(p, l.g), g, l.t, s.sig[l.t])])
  }

  /** Slot `u` of a group comes back from waiting on `owner`, woken or because `owner` had changed. */
  predicate Returns(g: R.State, g': R.State, u: nat)
    requires |g.members| == |g'.members| == SLOTS && u < SLOTS
  {
    g.members[u].pc in {R.WaitOwner, R.AsleepOwner} && g'.members[u].pc == R.Top
  }

  /** Outside batches sig[] changes with returns from waiting on `owner` only, by one each, and m[] does not. */
  lemma ReturnsIncrement(r: R.Rules, p: Setup, s: State, l: Who, u: nat)
    requires Moves(r, p, s, l) && !IsWorking(p, s, l) && u < SLOTS
    ensures var s' := Step(r, p, s, l);
            && Sized(p, s') && s'.m == s.m
            && s'.sig[u] == if Returns(s.groups[l.g], s'.groups[l.g], u) then (s.sig[u] + 1) % W else s.sig[u]
  {
    hide Pick;
    hide StartOf;
    hide FirstFrom;
    hide LeaderOf;
  }

  ghost function Next(r: R.Rules, p: Setup): (State, Who) -> Option<State>
  {
    (s: State, l: Who) => if Moves(r, p, s, l) then Some(Step(r, p, s, l)) else None
  }

  // ----- Each group follows the protocol

  lemma MoverIsSlot(r: R.Rules, p: Setup, s: State, l: Who)
    requires Moves(r, p, s, l)
    ensures l.t < SLOTS == |s.sig| && l.g < NFUTEX == |s.groups|
  {
  }

  lemma StepKeepsSized(r: R.Rules, p: Setup, s: State, l: Who)
    requires Moves(r, p, s, l)
    ensures Sized(p, Step(r, p, s, l))
  {
    hide Mix;
    hide Pick;
    hide StartOf;
    hide FirstFrom;
  }

  /** The moves of group `g` in a run, each with the sig[] entry that it could pick by. */
  ghost function GroupMoves(r: R.Rules, p: Setup, s: State, run: seq<Who>, g: nat): seq<R.Move>
    requires Exec(Next(r, p), s, run).Some?
    decreases |run|
  {
    if run == [] then []
    else
      var l := run[0];
      var rest := GroupMoves(r, p, Step(r, p, s, l), run[1..], g);
      if l.g == g && !IsWorking(p, s, l) then [R.Move(l.t, s.sig[l.t])] + rest else rest
  }

  lemma StepProjects(r: R.Rules, p: Setup, s: State, l: Who, g: nat)
    requires Moves(r, p, s, l) && g < NFUTEX
    ensures var s' := Step(r, p, s, l);
            && |s'.groups| == NFUTEX
            && if l.g == g && !IsWorking(p, s, l)
               then R.Next(r, GroupConfig(p, g))(s.groups[g], R.Move(l.t, s.sig[l.t])) == Some(s'.groups[g])
               else s'.groups[g] == s.groups[g]
  {
    hide Mix;
    hide R.Step;
  }

  /** Every run of the program is, for each group, a run of the protocol. */
  lemma {:induction false} RunProjects(r: R.Rules, p: Setup, s: State, run: seq<Who>, g: nat)
    requires Sized(p, s) && g < NFUTEX && Exec(Next(r, p), s, run).Some?
    ensures var s' := Exec(Next(r, p), s, run).value;
            && Sized(p, s')
            && Exec(R.Next(r, GroupConfig(p, g)), s.groups[g], GroupMoves(r, p, s, run, g)) == Some(s'.groups[g])
    decreases |run|
  {
    hide Step;
    hide Sized;
    if run != [] {
      var l, s1 := run[0], Step(r, p, s, run[0]);
      MoverIsSlot(r, p, s, l);
      StepKeepsSized(r, p, s, l);
      StepProjects(r, p, s, l, g);
      RunProjects(r, p, s1, run[1..], g);
      if l.g == g && !IsWorking(p, s, l) {
        ExecCons(R.Next(r, GroupConfig(p, g)), s.groups[g], R.Move(l.t, s.sig[l.t]), GroupMoves(r, p, s1, run[1..], g));
      }
    }
  }

  lemma InitGroups(p: Setup, g: nat)
    requires g < NFUTEX
    ensures Sized(p, Init(p)) && Init(p).groups[g] == R.Init(GroupConfig(p, g))
  {
  }

  // ----- The whole program works when its groups do

  ghost predicate Suffices(r: R.Rules, p: Setup)
  {
    forall g :: 0 <= g < NFUTEX ==> T.Suffices(r, GroupConfig(p, g))
  }

  /** The largest group that main sets up. */
  function GroupSize(p: Setup): nat { if p.procs < NFUTEX then p.procs else p.procs / NFUTEX }

  /** What a caller can tell from NumProcs and MaxLoop. */
  lemma SufficesIff(r: R.Rules, p: Setup)
    ensures Suffices(r, p) <==>
              || GroupSize(p) <= 1
              || (r.leaderFirst && (p.maxLoop == 1 || (r.atomicPublish && (r.exactWakes || GroupSize(p) <= 2 || p.maxLoop <= 3))))
  {
    forall g: nat | g < NFUTEX
      ensures var n := FutexConditions.Size(GroupConfig(p, g)); n == GroupSize(p) || (p.procs < NFUTEX && n == 0)
    {
      GroupsFit(p.procs, g);
    }
    assert FutexConditions.Size(GroupConfig(p, 0)) == GroupSize(p);
    assert T.Suffices(r, GroupConfig(p, 0)) || !Suffices(r, p);
  }

  /** The rounds of every group are safe in every state of every run. */
  lemma RoundsAreSafe(r: R.Rules, p: Setup, run: seq<Who>, g: nat)
    requires Suffices(r, p) && Exec(Next(r, p), Init(p), run).Some? && g < NFUTEX
    ensures var s := Exec(Next(r, p), Init(p), run).value; Sized(p, s) && FutexSafety.RoundSafe(s.groups[g])
  {
    hide FutexSafety.RoundSafe;
    hide T.Suffices;
    hide R.Init;
    hide R.Next;
    InitGroups(p, g);
    RunProjects(r, p, Init(p), run, g);
    T.RoundsAreSafe(r, GroupConfig(p, g), GroupMoves(r, p, Init(p), run, g));
  }

  // ----- Termination

  function WorkLeft(p: Setup, w: Work): int
  {
    var rest := 5 * (BatchSize(p.maxLoop) - w.k);
    match w.pc
    case Test => rest + 5
    case Read1 => rest + 4
    case Read2 => rest + 3
    case Write => rest + 2
    case Store => rest + 1
  }

  function WorksLeft(p: Setup, s: State): seq<int>
  {
    seq(|s.work|, t requires 0 <= t < |s.work| => WorkLeft(p, s.work[t]))
  }

  function Budgets(p: Setup, s: State): seq<int>
    requires |s.groups| == NFUTEX
  {
    seq(NFUTEX, g requires 0 <= g < NFUTEX => T.Budget(GroupConfig(p, g), s.groups[g]))
  }

  /** A step of the protocol weighs more than a whole batch. */
  function Weight(p: Setup): int { 5 * BatchSize(p.maxLoop) + 6 }

  function Left(p: Setup, s: State): int
    requires |s.groups| == NFUTEX
  {
    Weight(p) * Sum(Budgets(p, s)) + Sum(WorksLeft(p, s))
  }

  predicate IsAtWork(p: Setup, w: Work) { w.k < BatchSize(p.maxLoop) || (w.k == BatchSize(p.maxLoop) && w.pc == Test) }

  ghost predicate Inv(p: Setup, s: State)
  {
    && Sized(p, s) && (forall t :: 0 <= t < SLOTS ==> IsAtWork(p, s.work[t]))
    && (forall g :: 0 <= g < NFUTEX ==> T.Sound(GroupConfig(p, g), s.groups[g]))
  }

  lemma InitInv(p: Setup)
    ensures Inv(p, Init(p))
  {
    hide T.Sound;
    hide R.Init;
    forall g | 0 <= g < NFUTEX
      ensures |Init(p).groups[g].members| == SLOTS && T.Sound(GroupConfig(p, g), Init(p).groups[g])
    {
      InitGroups(p, g);
      T.InitSound(GroupConfig(p, g));
    }
  }

  lemma LeftNonNegative(p: Setup, s: State)
    requires Inv(p, s)
    ensures Left(p, s) >= 0
  {
    hide T.Sound;
    hide T.Budget;
    forall g | 0 <= g < NFUTEX
      ensures Budgets(p, s)[g] >= 0
    {
      T.SoundBudget(GroupConfig(p, g), s.groups[g]);
    }
    SumNonNegative(Budgets(p, s));
    forall t | 0 <= t < SLOTS
      ensures WorksLeft(p, s)[t] >= 0
    {
      assert IsAtWork(p, s.work[t]);
    }
    SumNonNegative(WorksLeft(p, s));
  }

  lemma WorkDecreases(r: R.Rules, p: Setup, s: State, l: Who)
    requires Inv(p, s) && Moves(r, p, s, l) && IsWorking(p, s, l)
    ensures Inv(p, Step(r, p, s, l)) && Left(p, Step(r, p, s, l)) < Left(p, s)
  {
    hide T.Sound;
    hide T.Budget;
    hide Mix;
    hide R.Step;
    hide BatchSize;
    var s' := Step(r, p, s, l);
    assert IsAtWork(p, s.work[l.t]);
    StepKeepsSized(r, p, s, l);
    SumChange(WorksLeft(p, s), WorksLeft(p, s'), l.t);
    assert Budgets(p, s') == Budgets(p, s);
  }

  lemma RoundDecreases(r: R.Rules, p: Setup, s: State, l: Who)
    requires Inv(p, s) && Moves(r, p, s, l) && !IsWorking(p, s, l) && Suffices(r, p)
    ensures Inv(p, Step(r, p, s, l)) && Left(p, Step(r, p, s, l)) < Left(p, s)
  {
    hide T.Sound;
    hide T.Budget;
    hide T.Suffices;
    hide R.Step;
    hide R.Moves;
    hide BatchSize;
    hide Sum;
    hide Sized;
    StepKeepsSized(r, p, s, l);
    MoverIsSlot(r, p, s, l);
    RoundStep(r, p, s, l);
    var s' := Step(r, p, s, l);
    hide Step;
    assert IsAtWork(p, s.work[l.t]);
    SumChange(WorksLeft(p, s), WorksLeft(p, s'), l.t);
    SumChange(Budgets(p, s), Budgets(p, s'), l.g);
    Outweighs(Weight(p), Sum(Budgets(p, s)), Sum(Budgets(p, s')), Sum(WorksLeft(p, s)), Sum(WorksLeft(p, s')));
  }

  lemma RoundStep(r: R.Rules, p: Setup, s: State, l: Who)
    requires Inv(p, s) && Moves(r, p, s, l) && !IsWorking(p, s, l) && Suffices(r, p)
    ensures var s', c := Step(r, p, s, l), GroupConfig(p, l.g);
            && l.t < SLOTS && l.g < NFUTEX == |s.groups| == |s'.groups|
            && |s'.work| == |s.work| == SLOTS && s'.work == s.work[l.t := NO_WORK]
            && (forall g :: 0 <= g < NFUTEX && g != l.g ==> s'.groups[g] == s.groups[g])
            && T.Sound(c, s'.groups[l.g]) && T.Budget(c, s'.groups[l.g]) < T.Budget(c, s.groups[l.g])
  {
    hide T.Sound;
    hide T.Budget;
    hide T.Suffices;
    hide R.Step;
    hide R.Moves;
    MoverIsSlot(r, p, s, l);
    GroupCanMove(r, p, s, l);
    T.SoundStep(r, GroupConfig(p, l.g), s.groups[l.g], l.t, s.sig[l.t]);
  }

  lemma GroupCanMove(r: R.Rules, p: Setup, s: State, l: Who)
    requires Moves(r, p, s, l)
    ensures Sized(p, s) && l.g < NFUTEX && R.Moves(r, GroupConfig(p, l.g), s.groups[l.g], l.t)
  {
  }

  lemma Outweighs(w: int, x: int, y: int, a: int, b: int)
    requires w > 0 && y < x && b < a + w
    ensures w * y + b < w * x + a
  {
    assert w * y <= w * (x - 1) == w * x - w;
  }

  lemma {:induction false} RunDecreases(r: R.Rules, p: Setup, s: State, run: seq<Who>)
    requires Suffices(r, p) && Inv(p, s) && Exec(Next(r, p), s, run).Some?
    ensures var s' := Exec(Next(r, p), s, run).value; Inv(p, s') && |run| + Left(p, s') <= Left(p, s)
    decreases |run|
  {
    hide Suffices;
    hide Left;
    hide Step;
    if run != [] {
      if IsWorking(p, s, run[0]) {
        WorkDecreases(r, p, s, run[0]);
      } else {
        RoundDecreases(r, p, s, run[0]);
      }
      RunDecreases(r, p, Step(r, p, s, run[0]), run[1..]);
    }
  }

  ghost predicate Stuck(r: R.Rules, p: Setup, s: State)
  {
    forall l :: !Moves(r, p, s, l)
  }

  /** All runs of the program are bounded, and one that cannot be continued has all groups finished. */
  lemma ProgramFinishes(r: R.Rules, p: Setup, run: seq<Who>, g: nat)
    requires Suffices(r, p) && Exec(Next(r, p), Init(p), run).Some? && g < NFUTEX
    ensures var s := Exec(Next(r, p), Init(p), run).value;
            && |run| <= Left(p, Init(p)) && |s.groups| == NFUTEX
            && (Stuck(r, p, s) ==> FutexProgress.Finished(s.groups[g]))
  {
    hide Suffices;
    hide Left;
    hide T.Sound;
    hide Init;
    hide FutexProgress.Finished;
    InitInv(p);
    RunDecreases(r, p, Init(p), run);
    var s := Exec(Next(r, p), Init(p), run).value;
    LeftNonNegative(p, s);
    if Stuck(r, p, s) {
      forall t: nat
        ensures !R.Moves(r, GroupConfig(p, g), s.groups[g], t)
      {
        assert !Moves(r, p, s, Who(g, t));
      }
      T.SoundStuck(r, GroupConfig(p, g), s.groups[g]);
    }
  }

  // ----- A batch that nobody disturbs

  function Times(l: Who, n: nat): (run: seq<Who>)
    ensures |run| == n
  {
    seq(n, _ => l)
  }

  /** The thread of `l` has made `k` iterations of its batch. */
  predicate HasWorked(r: R.Rules, p: Setup, s: State, l: Who, k: nat)
  {
    && Moves(r, p, s, l) && l.t < SLOTS && s.groups[l.g].members[l.t].pc == R.Batch
    && s.work[l.t].k == k && s.work[l.t].pc == Test
  }

  lemma LoadBoth(r: R.Rules, p: Setup, s: State, l: Who, k: nat)
    requires HasWorked(r, p, s, l, k) && IsWorking(p, s, l)
    ensures var num1 := Mix(s.sig[l.t], s.m[s.sig[l.t] % p.elems]);
            var w := Work(k, Write, Mix(num1, s.m[num1 % p.elems]), num1 % p.elems);
            Exec(Next(r, p), s, [l, l, l]) == Some(s.(work := s.work[l.t := w]))
  {
    hide Mix;
    hide R.Step;
    var s1 := Step(r, p, s, l);
    var s2 := Step(r, p, s1, l);
    ExecOne(Next(r, p), s2, l);
    ExecCons(Next(r, p), s1, l, [l]);
    ExecCons(Next(r, p), s, l, [l, l]);
    assert Step(r, p, s2, l).work == s.work[l.t := Step(r, p, s2, l).work[l.t]];
  }

  lemma StoreBoth(r: R.Rules, p: Setup, s: State, l: Who, w: Work)
    requires Moves(r, p, s, l) && IsWorking(p, s, l) && l.t < SLOTS && s.work[l.t] == w && w.pc == Write
    ensures Exec(Next(r, p), s, [l, l])
         == Some(s.(m := s.m[w.index := w.num], sig := s.sig[l.t := w.num],
                    work := s.work[l.t := Work(w.k + 1, Test, w.num, w.index)]))
  {
    hide R.Step;
    var s1 := Step(r, p, s, l);
    ExecOne(Next(r, p), s1, l);
    ExecCons(Next(r, p), s, l, [l]);
    assert Step(r, p, s1, l).work == s.work[l.t := Work(w.k + 1, Test, w.num, w.index)];
  }

  /** `s'` is `s` after `n` iterations of the thread of `l`. */
  ghost predicate Worked(p: Setup, s: State, s': State, l: Who, n: nat)
    requires Sized(p, s) && l.t < SLOTS
  {
    && |s'.work| == SLOTS && s'.m == SharedLoop.Iterate(s.m, s.sig[l.t], n).0
    && s'.sig == s.sig[l.t := SharedLoop.Iterate(s.m, s.sig[l.t], n).1]
    && s' == s.(m := s'.m, sig := s'.sig, work := s.work[l.t := s'.work[l.t]])
  }

  lemma OneIteration(r: R.Rules, p: Setup, s: State, s0: State, l: Who, n: nat) returns (s': State)
    requires Sized(p, s) && HasWorked(r, p, s0, l, n) && IsWorking(p, s0, l) && Worked(p, s, s0, l, n)
    ensures Exec(Next(r, p), s0, Times(l, 5)) == Some(s') && HasWorked(r, p, s', l, n + 1) && Worked(p, s, s', l, n + 1)
  {
    hide Mix;
    hide R.Step;
    hide R.Moves;
    hide Exec;
    hide Step;
    LoadBoth(r, p, s0, l, n);
    var s1 := Exec(Next(r, p), s0, [l, l, l]).value;
    StoreBoth(r, p, s1, l, s1.work[l.t]);
    s' := Exec(Next(r, p), s1, [l, l]).value;
    ExecAppend(Next(r, p), s0, [l, l, l], [l, l]);
    assert Times(l, 5) == [l, l, l] + [l, l];
    assert s'.work == s.work[l.t := s'.work[l.t]];
  }

  lemma {:induction false} Iterations(r: R.Rules, p: Setup, s: State, l: Who, n: nat) returns (s': State)
    requires HasWorked(r, p, s, l, 0) && n <= BatchSize(p.maxLoop) && n <= s.groups[l.g].members[l.t].left
    ensures Exec(Next(r, p), s, Times(l, 5 * n)) == Some(s') && HasWorked(r, p, s', l, n) && Worked(p, s, s', l, n)
  {
    hide Mix;
    hide Step;
    hide R.Moves;
    hide BatchSize;
    if n == 0 {
      s' := s;
      assert s.work == s.work[l.t := s.work[l.t]] && s.sig == s.sig[l.t := s.sig[l.t]];
      assert Times(l, 0) == [];
    } else {
      var s0 := Iterations(r, p, s, l, n - 1);
      assert s0.groups == s.groups;
      s' := OneIteration(r, p, s, s0, l, n - 1);
      ExecAppend(Next(r, p), s, Times(l, 5 * (n - 1)), Times(l, 5));
      assert Times(l, 5 * n) == Times(l, 5 * (n - 1)) + Times(l, 5);
    }
  }

  function BatchLength(p: Setup, left: nat): nat
  {
    if left <= BatchSize(p.maxLoop) then left else BatchSize(p.maxLoop)
  }

  /** Undisturbed, a batch makes as many iterations of the mixing as it has, and then ends. */
  lemma UndisturbedBatch(r: R.Rules, p: Setup, s: State, l: Who)
    requires HasWorked(r, p, s, l, 0) && s.work[l.t] == NO_WORK
    ensures var g := s.groups[l.g];
            var n := BatchLength(p, g.members[l.t].left);
            var (m, num) := SharedLoop.Iterate(s.m, s.sig[l.t], n);
            Exec(Next(r, p), s, Times(l, 5 * n + 1)) ==
              Some(State(m, s.sig[l.t := num], s.work,
                         s.groups[l.g := R.Step(r, GroupConfig(p, l.g), g, l.t, num)]))
  {
    hide SharedLoop.Iterate;
    hide R.Step;
    hide R.Moves;
    hide BatchSize;
    hide Exec;
    hide WorkStep;
    var n := BatchLength(p, s.groups[l.g].members[l.t].left);
    var s1 := Iterations(r, p, s, l, n);
    ExecOne(Next(r, p), s1, l);
    ExecAppend(Next(r, p), s, Times(l, 5 * n), [l]);
    assert Times(l, 5 * n + 1) == Times(l, 5 * n) + [l];
    assert s1.work[l.t := NO_WORK] == s.work;
  }
}
