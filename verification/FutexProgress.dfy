/**
 A group of racey-futex.c always runs to its end: somebody can always move, every turn costs an
 iteration, and between two publications there are only finitely many steps.
 */
module FutexProgress {
  import opened Sums
  import opened FutexGroup
  import opened FutexRounds
  import opened FutexSafety

  // ----- Somebody can always move

  lemma AtNonBlocking(c: Config, s: State, t: nat)
    requires |s.members| == SLOTS && t < SLOTS && MemberInv(c, s, t)
    requires s.members[t].pc !in {Returned, AsleepRound, AsleepOwner, Spin, Leave}
    ensures Moves(ALL_RULES, c, s, t)
  {
  }

  lemma SoloMoves(c: Config, s: State, o: nat)
    requires Inv(c, s, Solo(o))
    ensures exists t :: Moves(ALL_RULES, c, s, t)
  {
    var m := s.members[o];
    assert MemberInv(c, s, o) && SleepInv(s, o);
    if m.pc == AsleepOwner {
      var w :| 0 <= w < SLOTS && s.members[w].pc == WakeOne;
      assert MemberInv(c, s, w);
      assert Moves(ALL_RULES, c, s, w);
    } else if m.pc == AsleepRound {
      var w :| 0 <= w < SLOTS && s.members[w].pc == WakeAll;
      assert MemberInv(c, s, w);
      assert Moves(ALL_RULES, c, s, w);
    } else {
      assert !After(s, m);
      assert Moves(ALL_RULES, c, s, o);
    }
  }

  ghost predicate Stuck(r: Rules, c: Config, s: State)
  {
    forall t :: !Moves(r, c, s, t)
  }

  /** In a group turn in which nobody can move, everybody would be past the barrier. */
  lemma StuckTogether(c: Config, s: State, l: nat, t: nat)
    requires Inv(c, s, Together(l)) && Stuck(ALL_RULES, c, s) && t < SLOTS
    ensures !(s.live[t] && !After(s, s.members[t]) && !Inside(s.members[t]))
    ensures Inside(s.members[t]) ==> s.members[t].pc == Leave
    ensures After(s, s.members[t]) ==> s.members[t].pc in {Spin, AsleepRound}
  {
    var m := s.members[t];
    assert MemberInv(c, s, t) && SleepInv(s, t) && !Moves(ALL_RULES, c, s, t);
    if m.pc !in {Returned, AsleepRound, AsleepOwner, Spin, Leave} {
      AtNonBlocking(c, s, t);
    }
    if m.pc == AsleepOwner {
      assert m.owner != s.owner;
      var w :| 0 <= w < SLOTS && s.members[w].pc == WakeOne;
      assert MemberInv(c, s, w) && !Moves(ALL_RULES, c, s, w);
      AtNonBlocking(c, s, w);
    }
    if m.pc == AsleepRound && m.oldRound != s.round {
      var w :| 0 <= w < SLOTS && s.members[w].pc == WakeAll;
      assert MemberInv(c, s, w) && !Moves(ALL_RULES, c, s, w);
      AtNonBlocking(c, s, w);
    }
  }

  lemma TogetherMoves(c: Config, s: State, l: nat)
    requires Inv(c, s, Together(l))
    ensures exists t :: Moves(ALL_RULES, c, s, t)
  {
    if Stuck(ALL_RULES, c, s) {
      forall t | 0 <= t < SLOTS
        ensures (Inside(s.members[t]) ==> s.members[t].pc == Leave)
        ensures s.live[t] ==> HasLed(s, t)
        ensures After(s, s.members[t]) ==> s.members[t].pc in {Spin, AsleepRound}
      {
        StuckTogether(c, s, l, t);
        assert MemberInv(c, s, t);
      }
      forall t | 0 <= t < SLOTS
        ensures !Expected(s, t)
      {
        StuckTogether(c, s, l, t);
        assert MemberInv(c, s, t) && !Moves(ALL_RULES, c, s, t);
      }
      LeaderIsReleased(c, s, l);
    }
  }

  lemma LeaderIsReleased(c: Config, s: State, l: nat)
    requires Inv(c, s, Together(l)) && forall t :: 0 <= t < SLOTS ==> !Expected(s, t)
    ensures Moves(ALL_RULES, c, s, l)
  {
    assert ExpectedSet(s) == {};
    assert MemberInv(c, s, l) && HasLed(s, l);
  }

  lemma SomebodyMoves(c: Config, s: State, t: nat)
    requires HasTurn(c, s) && t < SLOTS && |s.members| == SLOTS && s.members[t].pc != Returned
    ensures exists u :: Moves(ALL_RULES, c, s, u)
  {
    var ph :| Inv(c, s, ph);
    assert MemberInv(c, s, t) && SleepInv(s, t);
    match ph
    case Solo(o) => SoloMoves(c, s, o);
    case Together(l) => TogetherMoves(c, s, l);
    case Publishing(l) =>
      assert MemberInv(c, s, l);
      assert Moves(ALL_RULES, c, s, l);
    case Over =>
      if s.members[t].pc == AsleepRound {
        var w :| 0 <= w < SLOTS && s.members[w].pc == WakeAll;
        assert MemberInv(c, s, w);
        assert Moves(ALL_RULES, c, s, w);
      } else {
        assert Moves(ALL_RULES, c, s, t);
      }
  }

  // ----- Every turn costs an iteration

  /** Somebody has executed its batch in the turn in progress. */
  predicate IsSpent(s: State)
  {
    exists t :: 0 <= t < |s.members| && HasExecuted(s, s.members[t])
  }

  predicate HasExecuted(s: State, m: Member)
  {
    m.pc in {Leave, Add, PickOne, BumpOne} || After(s, m)
  }

  function Lefts(s: State): seq<int>
  {
    seq(|s.members|, t requires 0 <= t < |s.members| => s.members[t].left)
  }

  /** A bound on the publications that are still to come. */
  function TurnsLeft(s: State): int
  {
    Sum(Lefts(s)) + if IsSpent(s) then 1 else 0
  }

  lemma LeftsUnchanged(r: Rules, c: Config, s: State, t: nat, sig: nat)
    requires Moves(r, c, s, t) && s.members[t].pc != Batch
    ensures Lefts(Step(r, c, s, t, sig)) == Lefts(s)
  {
    hide Pick;
    hide StartOf;
  }

  lemma BatchCosts(r: Rules, c: Config, s: State, t: nat, sig: nat)
    requires Moves(r, c, s, t) && s.members[t].pc == Batch && s.members[t].left > 0
    ensures Sum(Lefts(Step(r, c, s, t, sig))) < Sum(Lefts(s))
  {
    hide Pick;
    hide StartOf;
    var s' := Step(r, c, s, t, sig);
    SumChange(Lefts(s), Lefts(s'), t);
  }

  lemma SpentOnlyByBatch(r: Rules, c: Config, s: State, t: nat, sig: nat)
    requires Moves(r, c, s, t) && MemberInv(c, s, t) && s.members[t].pc !in {Batch, BumpAll, PickOne}
    ensures IsSpent(Step(r, c, s, t, sig)) ==> IsSpent(s)
  {
    hide Pick;
    hide StartOf;
    var s' := Step(r, c, s, t, sig);
    if u :| 0 <= u < SLOTS && HasExecuted(s', s'.members[u]) {
      assert HasExecuted(s, s.members[u]);
    }
  }

  lemma PublicationSpends(r: Rules, c: Config, s: State, ph: Phase, t: nat, sig: nat)
    requires Inv(c, s, ph) && Moves(r, c, s, t) && s.members[t].pc in {BumpAll, PickOne} && Harmless(r, s, t)
    ensures IsSpent(s) && !IsSpent(Step(r, c, s, t, sig))
  {
    assert MemberInv(c, s, t);
    assert HasExecuted(s, s.members[t]);
    NobodyElse(c, s, ph, t);
    StepOfPublisher(r, c, s, t, sig);
    hide Step;
    hide PhaseInv;
    var s' := Step(r, c, s, t, sig);
    forall u | 0 <= u < SLOTS
      ensures !HasExecuted(s', s'.members[u])
    {
      assert MemberInv(c, s, u);
    }
  }

  lemma StepOfPublisher(r: Rules, c: Config, s: State, t: nat, sig: nat)
    requires Moves(r, c, s, t) && s.members[t].pc in {BumpAll, PickOne} && Harmless(r, s, t)
    ensures var s' := Step(r, c, s, t, sig);
            && OnlyMoves(s, s', t) && s'.round == s.round + 1 && s'.members[t].pc in {WakeAll, WakeOne}
  {
    hide Pick;
    hide StartOf;
  }

  lemma TurnsDecrease(r: Rules, c: Config, s: State, ph: Phase, t: nat, sig: nat)
    requires Inv(c, s, ph) && Moves(r, c, s, t) && Harmless(r, s, t)
    ensures var s' := Step(r, c, s, t, sig);
            TurnsLeft(s') <= TurnsLeft(s) - if s.members[t].pc in {BumpAll, PickOne} then 1 else 0
  {
    assert MemberInv(c, s, t);
    hide Step;
    hide PhaseInv;
    if s.members[t].pc == Batch {
      BatchCosts(r, c, s, t, sig);
    } else {
      LeftsUnchanged(r, c, s, t, sig);
      if s.members[t].pc in {BumpAll, PickOne} {
        PublicationSpends(r, c, s, ph, t, sig);
      } else {
        SpentOnlyByBatch(r, c, s, t, sig);
      }
    }
  }

  // ----- Between publications

  function Rank(s: State, m: Member): nat
  {
    match m.pc
    case Top => 10
    case Lead => 9
    case Round => 8
    case Batch => 7
    case Leave => 6
    case Add => 5
    case Spin => if m.oldRound == s.round then 3 else 12
    case PickAll => 2
    case BumpAll => 1
    case WakeAll => 341
    case WaitRound => if m.oldRound == s.round then 1 else 11
    case PickOne => 5
    case BumpOne => 0
    case WakeOne => 341
    case WaitOwner => if m.owner == s.owner then 1 else 11
    case _ => 0
  }

  function Ranks(s: State): seq<int>
  {
    seq(|s.members|, t requires 0 <= t < |s.members| => Rank(s, s.members[t]))
  }

  lemma {:induction false} SumGrows(xs: seq<int>, ys: seq<int>, d: nat)
    requires |xs| == |ys| && forall k :: 0 <= k < |xs| ==> ys[k] <= xs[k] + d
    ensures Sum(ys) <= Sum(xs) + d * |xs|
    decreases |xs|
  {
    if xs != [] {
      SumGrows(xs[..|xs| - 1], ys[..|ys| - 1], d);
      assert d * |xs| == d * (|xs| - 1) + d;
    }
  }

  lemma RanksBound(s: State)
    requires |s.members| == SLOTS
    ensures 0 <= Sum(Ranks(s)) <= 341 * SLOTS
  {
    SumNonNegative(Ranks(s));
    var zeros := seq(SLOTS, _ => 0);
    SumGrows(zeros, Ranks(s), 341);
    SumGrows(Ranks(s), zeros, 0);
    SumZero(zeros);
  }

  lemma RankOfMover(r: Rules, c: Config, s: State, ph: Phase, t: nat, sig: nat)
    requires Inv(c, s, ph) && Moves(r, c, s, t) && s.members[t].pc !in {BumpAll, PickOne}
    ensures var s' := Step(r, c, s, t, sig);
            |s'.members| == SLOTS && Rank(s', s'.members[t]) < Rank(s, s.members[t])
    ensures s.members[t].pc in {WakeAll, WakeOne} ==>
              Rank(Step(r, c, s, t, sig), Step(r, c, s, t, sig).members[t]) == 10
  {
    hide Pick;
    hide StartOf;
    hide PhaseInv;
    hide SleepInv;
    assert MemberInv(c, s, t);
  }

  lemma RankOfWoken(r: Rules, c: Config, s: State, t: nat, sig: nat, u: nat)
    requires Moves(r, c, s, t) && s.members[t].pc in {WakeAll, WakeOne} && u < SLOTS && u != t
    ensures var s' := Step(r, c, s, t, sig);
            |s'.members| == SLOTS && Rank(s', s'.members[u]) <= Rank(s, s.members[u]) + 10
  {
    hide Pick;
    hide StartOf;
  }

  lemma RankOfUnmoved(r: Rules, c: Config, s: State, t: nat, sig: nat, u: nat)
    requires Moves(r, c, s, t) && s.members[t].pc !in {WakeAll, WakeOne, BumpAll, PickOne, BumpOne}
    requires u < SLOTS && u != t
    requires s.members[u].pc == WaitOwner ==>
               s.members[t].pc != PickAll && (s.members[t].pc == Add ==> s.owner < 0 < s.members[u].owner)
    ensures var s' := Step(r, c, s, t, sig);
            |s'.members| == SLOTS && Rank(s', s'.members[u]) == Rank(s, s.members[u])
  {
    hide Pick;
    hide StartOf;
    hide WakeMembers;
  }

  lemma RankOfOther(r: Rules, c: Config, s: State, ph: Phase, t: nat, sig: nat, u: nat)
    requires Inv(c, s, ph) && Moves(r, c, s, t) && s.members[t].pc !in {BumpAll, PickOne}
    requires u < SLOTS && u != t
    ensures var s' := Step(r, c, s, t, sig);
            && |s'.members| == SLOTS
            && Rank(s', s'.members[u]) <= Rank(s, s.members[u]) + 10
            && (s.members[t].pc !in {WakeAll, WakeOne} ==> Rank(s', s'.members[u]) == Rank(s, s.members[u]))
  {
    assert MemberInv(c, s, t) && MemberInv(c, s, u);
    if s.members[t].pc in {WakeAll, WakeOne} {
      RankOfWoken(r, c, s, t, sig, u);
    } else {
      if s.members[u].pc == WaitOwner {
        WaitersOnOwner(c, s, ph, t, u);
      }
      RankOfUnmoved(r, c, s, t, sig, u);
    }
  }

  lemma WaitersOnOwner(c: Config, s: State, ph: Phase, t: nat, u: nat)
    requires Inv(c, s, ph) && t < SLOTS && u < SLOTS && s.members[u].pc == WaitOwner
    ensures s.members[t].pc != PickAll && (s.members[t].pc == Add ==> s.owner < 0 < s.members[u].owner)
  {
    assert MemberInv(c, s, t) && MemberInv(c, s, u);
    assert s.members[t].pc == PickAll ==> After(s, s.members[t]);
    assert ph.Together? ==> u in ExpectedSet(s);
  }

  lemma RanksDecrease(r: Rules, c: Config, s: State, ph: Phase, t: nat, sig: nat)
    requires Inv(c, s, ph) && Moves(r, c, s, t) && s.members[t].pc !in {BumpAll, PickOne}
    ensures Sum(Ranks(Step(r, c, s, t, sig))) < Sum(Ranks(s))
  {
    var s' := Step(r, c, s, t, sig);
    RankOfMover(r, c, s, ph, t, sig);
    forall u | 0 <= u < SLOTS && u != t
      ensures Rank(s', s'.members[u]) <= Rank(s, s.members[u]) + 10
      ensures s.members[t].pc !in {WakeAll, WakeOne} ==> Rank(s', s'.members[u]) == Rank(s, s.members[u])
    {
      RankOfOther(r, c, s, ph, t, sig, u);
    }
    assert s.members[t].pc in {WakeAll, WakeOne} ==> Rank(s, s.members[t]) == 341;
    hide Step;
    hide Inv;
    hide Rank;
    var xs, ys := Ranks(s), Ranks(s');
    if s.members[t].pc in {WakeAll, WakeOne} {
      SumUpdate(xs, t, 0);
      SumUpdate(ys, t, 0);
      SumGrows(xs[t := 0], ys[t := 0], 10);
    } else {
      SumChange(xs, ys, t);
    }
  }

  function Left(s: State): int { (341 * SLOTS + 1) * TurnsLeft(s) + Sum(Ranks(s)) }

  lemma StepDecreases(r: Rules, c: Config, s: State, ph: Phase, t: nat, sig: nat)
    requires Inv(c, s, ph) && Moves(r, c, s, t) && Harmless(r, s, t)
    ensures Left(Step(r, c, s, t, sig)) < Left(s)
  {
    hide Step;
    hide MemberInv;
    hide SleepInv;
    hide PhaseInv;
    hide TurnsLeft;
    hide Ranks;
    var s' := Step(r, c, s, t, sig);
    TurnsDecrease(r, c, s, ph, t, sig);
    RanksBound(s);
    if s.members[t].pc in {BumpAll, PickOne} {
      StepOfPublisher(r, c, s, t, sig);
      RanksBound(s');
    } else {
      RanksDecrease(r, c, s, ph, t, sig);
    }
  }

  lemma LeftNonNegative(c: Config, s: State)
    requires HasTurn(c, s)
    ensures Left(s) >= 0
  {
    RanksBound(s);
    SumNonNegative(Lefts(s));
  }

  /** All members have returned, nobody sleeps, the group is empty and `owner` is 0. */
  ghost predicate Finished(s: State)
  {
    && |s.members| == SLOTS && (forall t :: 0 <= t < SLOTS ==> s.members[t].pc == Returned)
    && s.owner == 0 && IsEmpty(s.live)
  }

  lemma AllReturned(c: Config, s: State)
    requires HasTurn(c, s) && |s.members| == SLOTS && forall t :: 0 <= t < SLOTS ==> s.members[t].pc == Returned
    ensures Finished(s)
  {
    hide SleepInv;
    var ph :| Inv(c, s, ph);
    forall t | 0 <= t < SLOTS
      ensures !s.live[t]
    {
      assert MemberInv(c, s, t);
    }
    if ph.Together? {
      assert ExpectedSet(s) == {};
    }
  }

  /** Rules only ever block members, so without some of them there is no less progress. */
  lemma SomebodyMovesAnyway(r: Rules, c: Config, s: State, t: nat)
    requires HasTurn(c, s) && t < SLOTS && |s.members| == SLOTS && s.members[t].pc != Returned
    ensures exists u :: Moves(r, c, s, u)
  {
    hide HasTurn;
    SomebodyMoves(c, s, t);
    var u :| Moves(ALL_RULES, c, s, u);
    assert Moves(r, c, s, u);
  }

  lemma StuckIsFinished(r: Rules, c: Config, s: State)
    requires HasTurn(c, s) && Stuck(r, c, s)
    ensures Finished(s)
  {
    assert |s.members| == SLOTS by {
      var ph :| Inv(c, s, ph);
      InvSized(c, s, ph);
    }
    hide Inv;
    forall t | 0 <= t < SLOTS
      ensures s.members[t].pc == Returned
    {
      if s.members[t].pc != Returned {
        SomebodyMovesAnyway(r, c, s, t);
      }
    }
    AllReturned(c, s);
  }

  // ----- The number of turns

  lemma NeverBumpOne(c: Config, s: State, ph: Phase, t: nat)
    requires Inv(c, s, ph) && t < SLOTS
    ensures s.members[t].pc != BumpOne
  {
    assert MemberInv(c, s, t);
  }

  lemma RoundGrows(r: Rules, c: Config, s: State, t: nat, sig: nat)
    requires Moves(r, c, s, t)
    ensures Step(r, c, s, t, sig).round
         <= s.round + if s.members[t].pc in {BumpAll, PickOne, BumpOne} then 1 else 0
  {
  }
}
