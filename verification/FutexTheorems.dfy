/**
 Groups of racey-futex.c, of every size and for every MaxLoop: under which rules the rounds are safe
 and the group finishes.  The condition speaks of nothing but the rules, the size and MaxLoop.
 */
module FutexTheorems {
  import opened Runs
  import opened Sums
  import opened FutexGroup
  import opened FutexRounds
  import opened FutexSafety
  import opened FutexProgress
  import opened FutexConditions
  import FutexAlone
  import FutexNeeded

  /**
   One member needs no rules.  Two or more need leaderFirst, and, unless there is but one
   iteration, atomicPublish; three or more with four iterations or more need exactWakes too.
   */
  predicate Suffices(r: Rules, c: Config)
  {
    Size(c) <= 1 || RulesSuffice(r, c)
  }

  ghost function Final(r: Rules, c: Config, run: seq<Move>): State
    requires Exec(Next(r, c), Init(c), run).Some?
  {
    Exec(Next(r, c), Init(c), run).value
  }

  /** What every step keeps, for groups of one member and for the others. */
  ghost predicate Sound(c: Config, s: State)
  {
    if Size(c) <= 1 then FutexAlone.AloneInv(c, s) else Good(c, s)
  }

  /** A bound on the steps that are still to come. */
  function Budget(c: Config, s: State): int
  {
    if Size(c) <= 1 then FutexAlone.Budget(c, s) else Left(s)
  }

  /** The rounds so far, and a bound on those that are still to come. */
  function Rounds(c: Config, s: State): int
  {
    var p := FutexAlone.Published(c, s);
    p.round + TurnsLeft(p)
  }

  lemma InitSound(c: Config)
    ensures Sound(c, Init(c)) && Rounds(c, Init(c)) == Sum(Lefts(Init(c)))
  {
    hide Extra;
    InitGood(c);
    assert FutexAlone.Published(c, Init(c)) == Init(c) && !IsSpent(Init(c));
  }

  lemma SoundStep(r: Rules, c: Config, s: State, t: nat, sig: nat)
    requires Suffices(r, c) && Sound(c, s) && Moves(r, c, s, t)
    ensures var s' := Step(r, c, s, t, sig);
            Sound(c, s') && Budget(c, s') < Budget(c, s) && Rounds(c, s') <= Rounds(c, s)
  {
    hide Left;
    hide TurnsLeft;
    hide Extra;
    hide HasTurn;
    hide Step;
    if Size(c) <= 1 {
      FutexAlone.StepKeepsAlone(r, c, s, t, sig);
    } else {
      GoodStep(r, c, s, t, sig);
    }
  }

  lemma SoundBudget(c: Config, s: State)
    requires Sound(c, s)
    ensures Budget(c, s) >= 0
  {
    hide Extra;
    LeftNonNegative(c, FutexAlone.Published(c, s));
    hide Left;
    hide HasTurn;
  }

  lemma SoundIsSafe(c: Config, s: State)
    requires Sound(c, s)
    ensures RoundSafe(s)
  {
    hide RoundSafe;
    hide HasTurn;
    if Size(c) <= 1 {
      FutexAlone.AloneIsSafe(c, s);
    } else {
      InvIsSafe(c, s);
    }
  }

  lemma SoundStuck(r: Rules, c: Config, s: State)
    requires Sound(c, s) && Stuck(r, c, s)
    ensures Finished(s)
  {
    hide HasTurn;
    hide Stuck;
    hide Finished;
    if Size(c) <= 1 {
      FutexAlone.AloneStuck(r, c, s);
    } else {
      StuckIsFinished(r, c, s);
    }
  }

  lemma {:induction false} SoundRun(r: Rules, c: Config, s: State, run: seq<Move>)
    requires Suffices(r, c) && Sound(c, s) && Exec(Next(r, c), s, run).Some?
    ensures var s' := Exec(Next(r, c), s, run).value;
            Sound(c, s') && |run| + Budget(c, s') <= Budget(c, s) && Rounds(c, s') <= Rounds(c, s)
    decreases |run|
  {
    hide Sound;
    hide Budget;
    hide Rounds;
    hide Suffices;
    if run != [] {
      SoundStep(r, c, s, run[0].t, run[0].sig);
      SoundRun(r, c, Step(r, c, s, run[0].t, run[0].sig), run[1..]);
    }
  }

  /** In every state of every run: owner counts, the barrier holds, one member publishes, single turns are exclusive. */
  lemma RoundsAreSafe(r: Rules, c: Config, run: seq<Move>)
    requires Suffices(r, c) && Exec(Next(r, c), Init(c), run).Some?
    ensures RoundSafe(Final(r, c, run))
  {
    hide RoundSafe;
    hide Sound;
    hide Suffices;
    InitSound(c);
    SoundRun(r, c, Init(c), run);
    SoundIsSafe(c, Final(r, c, run));
  }

  /**
   Every run is bounded, whatever the members pick, and one that cannot be continued ends with all
   members returned, nobody asleep, the group empty and `owner` 0.
   */
  lemma GroupFinishes(r: Rules, c: Config, run: seq<Move>)
    requires Suffices(r, c) && Exec(Next(r, c), Init(c), run).Some?
    ensures |run| <= Budget(c, Init(c))
    ensures Stuck(r, c, Final(r, c, run)) ==> Finished(Final(r, c, run))
  {
    hide Sound;
    hide Budget;
    hide Suffices;
    hide Stuck;
    hide Finished;
    InitSound(c);
    SoundRun(r, c, Init(c), run);
    var s := Final(r, c, run);
    SoundBudget(c, s);
    if Stuck(r, c, s) {
      SoundStuck(r, c, s);
    }
  }

  /** The execution barrier lets `t` through. */
  ghost predicate IsLetThrough(s: State, t: nat)
    requires t < |s.members| == SLOTS
  {
    || s.members[t].oldRound < s.round
    || ((forall u :: 0 <= u < SLOTS ==> !Expected(s, u)) && (IsPublishing(s) ==> IsEmpty(s.live)))
  }

  lemma InvBarrierIsExact(r: Rules, c: Config, s: State, ph: Phase, t: nat)
    requires Inv(c, s, ph) && t < SLOTS && s.members[t].pc == Spin
    ensures Moves(r, c, s, t) <==> IsLetThrough(s, t)
  {
    assert MemberInv(c, s, t);
    if s.members[t].oldRound == s.round {
      assert After(s, s.members[t]);
      if ph.Together? {
        assert forall u :: 0 <= u < SLOTS ==> (u in ExpectedSet(s) <==> Expected(s, u));
        assert s.owner == 0 <==> ExpectedSet(s) == {};
      }
    }
  }

  /**
   A member leaves the execution barrier exactly when all participants have come to it and no owner
   has been published since, or when the round is over.
   */
  lemma BarrierIsExact(r: Rules, c: Config, run: seq<Move>, t: nat)
    requires Suffices(r, c) && Exec(Next(r, c), Init(c), run).Some?
    requires |Final(r, c, run).members| == SLOTS && t < SLOTS && Final(r, c, run).members[t].pc == Spin
    ensures Moves(r, c, Final(r, c, run), t) <==> IsLetThrough(Final(r, c, run), t)
  {
    hide Suffices;
    hide Budget;
    hide Rounds;
    hide Moves;
    hide Inv;
    hide IsLetThrough;
    InitSound(c);
    SoundRun(r, c, Init(c), run);
    var s := Final(r, c, run);
    assert HasTurn(c, s) by {
      if Size(c) <= 1 && FutexAlone.IsMidway(c, s) {
        FutexAlone.OthersAreGone(c, s, c.begin);
      }
    }
    var ph :| Inv(c, s, ph);
    InvBarrierIsExact(r, c, s, ph, t);
  }

  /** Each published turn is paid for with an iteration of some member. */
  lemma RoundsAreBounded(r: Rules, c: Config, run: seq<Move>)
    requires Suffices(r, c) && Exec(Next(r, c), Init(c), run).Some?
    ensures var s := Final(r, c, run); s.round + Sum(Lefts(s)) <= Sum(Lefts(Init(c)))
  {
    hide Sound;
    hide Suffices;
    InitSound(c);
    SoundRun(r, c, Init(c), run);
    var s := Final(r, c, run);
    assert Lefts(FutexAlone.Published(c, s)) == Lefts(s);
  }

  // ----- Nothing less suffices

  ghost predicate Works(r: Rules, c: Config)
  {
    forall run :: Exec(Next(r, c), Init(c), run).Some? ==>
      RoundSafe(Final(r, c, run)) && (Stuck(r, c, Final(r, c, run)) ==> Finished(Final(r, c, run)))
  }

  lemma BadRun(r: Rules, c: Config) returns (run: seq<Move>)
    requires !Suffices(r, c)
    ensures Exec(Next(r, c), Init(c), run).Some?
    ensures var s := Final(r, c, run); RoundSafe(s) ==> Stuck(r, c, s) && !Finished(s)
  {
    hide Exec;
    hide Init;
    hide OwnerCounts;
    hide BarrierHolds;
    hide SingleTurnIsExclusive;
    hide Stuck;
    var s;
    if !r.leaderFirst {
      run, s := FutexNeeded.TwoLeaders(r, c);
    } else if !r.atomicPublish {
      run, s := FutexNeeded.TwoPublishers(r, c);
    } else {
      run, s := FutexNeeded.Deadlock(r, c);
    }
  }

  /** The rules, the size of the group and MaxLoop decide whether every run goes well. */
  lemma WorksIff(r: Rules, c: Config)
    ensures Works(r, c) <==> Suffices(r, c)
  {
    hide RoundSafe;
    hide Stuck;
    hide Finished;
    hide Suffices;
    if Suffices(r, c) {
      forall run | Exec(Next(r, c), Init(c), run).Some?
        ensures RoundSafe(Final(r, c, run)) && (Stuck(r, c, Final(r, c, run)) ==> Finished(Final(r, c, run)))
      {
        RoundsAreSafe(r, c, run);
        GroupFinishes(r, c, run);
      }
    } else {
      var run := BadRun(r, c);
    }
  }

  ghost predicate HasTwoLeaders(s: State)
  {
    exists t, u :: 0 <= t < u < |s.members| && s.members[t].pc == PickAll && s.members[u].pc == PickAll
  }

  ghost predicate CanHaveTwoLeaders(r: Rules, c: Config)
  {
    exists run :: Exec(Next(r, c), Init(c), run).Some? && HasTwoLeaders(Final(r, c, run))
  }

  /** Without leaderFirst, two members can lead one turn in every group but those of a single member. */
  lemma TwoLeadersIff(r: Rules, c: Config)
    requires !r.leaderFirst
    ensures CanHaveTwoLeaders(r, c) <==> Size(c) >= 2
  {
    hide Exec;
    hide Init;
    if Size(c) >= 2 {
      var run, s := FutexNeeded.TwoLeaders(r, c);
      assert HasTwoLeaders(Final(r, c, run));
    } else {
      forall run | Exec(Next(r, c), Init(c), run).Some?
        ensures !HasTwoLeaders(Final(r, c, run))
      {
        RoundsAreSafe(r, c, run);
        hide OwnerCounts;
        hide BarrierHolds;
        hide SingleTurnIsExclusive;
      }
    }
  }
}
