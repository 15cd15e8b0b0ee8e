/**
 Runs of the protocol in which nobody has picked anything yet are runs of the program, for any data:
 so two leaders are not an artefact of free picks.
 */
module FutexLift {
  import opened Runs
  import opened Shared
  import opened FutexGroup
  import opened FutexProgram
  import R = FutexRounds
  import N = FutexNeeded
  import T = FutexTheorems
  import SharedLoop

  ghost predicate Idle(p: Setup, s: State)
  {
    Sized(p, s) && forall t :: 0 <= t < SLOTS ==> s.work[t] == NO_WORK
  }

  lemma PickedStays(r: R.Rules, c: R.Config, g: R.State, t: nat, sig: nat)
    requires R.Moves(r, c, g, t)
    ensures var g' := R.Step(r, c, g, t, sig);
            |g'.members| == SLOTS && (N.HasPicked(g) || g.members[t].pc in {R.PickAll, R.PickOne} ==> N.HasPicked(g'))
  {
    hide Pick;
    hide StartOf;
    hide FirstFrom;
    var g' := R.Step(r, c, g, t, sig);
    if g.members[t].pc in {R.PickAll, R.PickOne} && g'.round == g.round {
      assert g'.members[t].pc in {R.BumpAll, R.BumpOne};
    } else if u :| 0 <= u < SLOTS && g.members[u].pc in {R.BumpAll, R.BumpOne} {
      assert g'.members[u].pc in {R.BumpAll, R.BumpOne} || g'.round > 0;
    }
  }

  lemma {:induction false} PickedStaysInRun(r: R.Rules, c: R.Config, g: R.State, run: seq<R.Move>)
    requires N.HasPicked(g) && Exec(R.Next(r, c), g, run).Some?
    ensures N.HasPicked(Exec(R.Next(r, c), g, run).value)
    decreases |run|
  {
    hide N.HasPicked;
    hide R.Step;
    if run != [] {
      PickedStays(r, c, g, run[0].t, run[0].sig);
      PickedStaysInRun(r, c, R.Step(r, c, g, run[0].t, run[0].sig), run[1..]);
    }
  }

  /** A step that picks nothing does not depend on sig[]. */
  lemma SigDoesNotMatter(r: R.Rules, c: R.Config, g: R.State, t: nat, a: nat, b: nat)
    requires R.Moves(r, c, g, t) && g.members[t].pc !in {R.PickAll, R.PickOne}
    ensures R.Step(r, c, g, t, a) == R.Step(r, c, g, t, b)
  {
    hide Pick;
    hide StartOf;
    hide FirstFrom;
  }

  lemma LiftStep(r: R.Rules, p: Setup, s: State, i: nat, t: nat, sig: nat) returns (run: seq<Who>, s': State)
    requires Idle(p, s) && i < NFUTEX && R.Moves(r, GroupConfig(p, i), s.groups[i], t)
    requires s.groups[i].members[t].pc !in {R.PickAll, R.PickOne}
    ensures Exec(Next(r, p), s, run) == Some(s') && Idle(p, s')
    ensures s'.groups[i] == R.Step(r, GroupConfig(p, i), s.groups[i], t, sig)
  {
    var l, c := Who(i, t), GroupConfig(p, i);
    MoverIsSlot(r, p, s, l);
    var n := BatchLength(p, s.groups[i].members[t].left);
    var num := SharedLoop.Iterate(s.m, s.sig[t], n).1;
    SigDoesNotMatter(r, c, s.groups[i], t, sig, s.sig[t]);
    SigDoesNotMatter(r, c, s.groups[i], t, sig, num);
    PickedStays(r, c, s.groups[i], t, sig);
    hide R.Step;
    hide R.Moves;
    hide SharedLoop.Iterate;
    if s.groups[i].members[t].pc == R.Batch {
      UndisturbedBatch(r, p, s, l);
      run := Times(l, 5 * n + 1);
      s' := Exec(Next(r, p), s, run).value;
    } else {
      run, s' := [l], Step(r, p, s, l);
      ExecOne(Next(r, p), s, l);
      StepKeepsSized(r, p, s, l);
    }
  }

  lemma {:induction false} LiftRun(r: R.Rules, p: Setup, s: State, i: nat, moves: seq<R.Move>)
      returns (run: seq<Who>, s': State)
    requires Idle(p, s) && i < NFUTEX && Exec(R.Next(r, GroupConfig(p, i)), s.groups[i], moves).Some?
    requires !N.HasPicked(Exec(R.Next(r, GroupConfig(p, i)), s.groups[i], moves).value)
    ensures Exec(Next(r, p), s, run) == Some(s') && Idle(p, s')
    ensures Exec(R.Next(r, GroupConfig(p, i)), s.groups[i], moves) == Some(s'.groups[i])
    decreases |moves|
  {
    hide R.Step;
    hide N.HasPicked;
    hide Idle;
    assert |s.groups| == NFUTEX by { IdleSized(p, s); }
    if moves == [] {
      run, s' := [], s;
    } else {
      var c, t, sig := GroupConfig(p, i), moves[0].t, moves[0].sig;
      var g1 := R.Step(r, c, s.groups[i], t, sig);
      PickedStays(r, c, s.groups[i], t, sig);
      if N.HasPicked(g1) {
        PickedStaysInRun(r, c, g1, moves[1..]);
      }
      var run1, s1 := LiftStep(r, p, s, i, t, sig);
      var run2, s2 := LiftRun(r, p, s1, i, moves[1..]);
      run, s' := run1 + run2, s2;
      ExecAppend(Next(r, p), s, run1, run2);
    }
  }

  lemma IdleSized(p: Setup, s: State)
    requires Idle(p, s)
    ensures |s.groups| == NFUTEX
  {
  }

  ghost predicate CanHaveTwoLeaders(r: R.Rules, p: Setup)
  {
    exists run :: HasTwoLeadersAfter(r, p, run)
  }

  ghost predicate HasTwoLeadersAfter(r: R.Rules, p: Setup, run: seq<Who>)
  {
    match Exec(Next(r, p), Init(p), run)
    case None => false
    case Some(s) => Sized(p, s) && exists g :: 0 <= g < NFUTEX && T.HasTwoLeaders(s.groups[g])
  }

  /**
   With MaxLoop 1 and without leaderFirst, the program - whatever the other rules - can have two
   leaders in a turn exactly when its groups have two members or more.
   */
  lemma TwoLeadersIff(r: R.Rules, p: Setup)
    requires !r.leaderFirst && p.maxLoop == 1
    ensures CanHaveTwoLeaders(r, p) <==> GroupSize(p) >= 2
  {
    hide T.HasTwoLeaders;
    if GroupSize(p) >= 2 {
      TwoLeaders(r, p);
    } else {
      forall run
        ensures !HasTwoLeadersAfter(r, p, run)
      {
        if Exec(Next(r, p), Init(p), run).Some? {
          NoTwoLeaders(r, p, run);
        }
      }
    }
  }

  lemma NoTwoLeaders(r: R.Rules, p: Setup, run: seq<Who>)
    requires !r.leaderFirst && GroupSize(p) <= 1 && Exec(Next(r, p), Init(p), run).Some?
    ensures !HasTwoLeadersAfter(r, p, run)
  {
    hide Next;
    forall g: nat | g < NFUTEX
      ensures var s := Exec(Next(r, p), Init(p), run).value; Sized(p, s) && !T.HasTwoLeaders(s.groups[g])
    {
      var c, moves := GroupConfig(p, g), GroupMoves(r, p, Init(p), run, g);
      InitGroups(p, g);
      RunProjects(r, p, Init(p), run, g);
      GroupsFit(p.procs, g);
      T.TwoLeadersIff(r, c);
    }
  }

  lemma TwoLeaders(r: R.Rules, p: Setup)
    requires !r.leaderFirst && p.maxLoop == 1 && GroupSize(p) >= 2
    ensures CanHaveTwoLeaders(r, p)
  {
    var c := GroupConfig(p, 0);
    var moves, g := N.TwoLeaders(r, c);
    InitGroups(p, 0);
    assert Idle(p, Init(p));
    var run, s := LiftRun(r, p, Init(p), 0, moves);
    assert T.HasTwoLeaders(s.groups[0]) by {
      assert s.groups[0].members[c.begin].pc == R.PickAll && s.groups[0].members[c.begin + 1].pc == R.PickAll;
    }
    assert HasTwoLeadersAfter(r, p, run);
  }
}
