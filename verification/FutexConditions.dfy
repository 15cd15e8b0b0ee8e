/**
 When a group of racey-futex.c works: what a caller can tell from the size of the group and from
 MaxLoop, and which rules have to hold besides.
 */
module FutexConditions {
  import opened Sums
  import opened FutexGroup
  import opened FutexRounds
  import opened FutexSafety
  import opened FutexProgress
  import Shared

  function Size(c: Config): nat { c.end - c.begin }

  /** The rules that a group of this size with this MaxLoop needs, if it has two members or more. */
  predicate RulesSuffice(r: Rules, c: Config)
  {
    r.leaderFirst && (c.maxLoop == 1 || (r.atomicPublish && (r.exactWakes || Size(c) <= 2 || c.maxLoop <= 3)))
  }

  // ----- A single iteration

  predicate HasRun(pc: Pc) { pc in {Leave, Add, Spin, PickAll, BumpAll, WakeAll, WaitRound, AsleepRound} }

  predicate IsTurning(pc: Pc) { pc in {Lead, Round, Batch, Leave} }

  /** With MaxLoop 1 there is only the first turn, which is the group's. */
  ghost predicate OneTurn(s: State)
    requires |s.members| == SLOTS
  {
    s.owner <= 0 && forall t :: 0 <= t < SLOTS ==> OneTurnOf(s.members[t])
  }

  predicate OneTurnOf(m: Member)
  {
    && m.left <= 1 && m.pc !in {PickOne, WakeOne}
    && (IsTurning(m.pc) ==> m.owner < 0) && (HasRun(m.pc) ==> m.left == 0)
  }

  lemma NobodyToPick(c: Config, s: State, ph: Phase, t: nat)
    requires Inv(c, s, ph) && t < SLOTS && s.members[t].pc == PickAll && OneTurn(s)
    ensures IsEmpty(s.live)
  {
    PublisherIsPhase(c, s, ph, t);
    assert After(s, s.members[t]) by { assert MemberInv(c, s, t); }
    assert ExpectedSet(s) == {} by {
      assert MemberInv(c, s, t);
    }
    forall u | 0 <= u < SLOTS
      ensures !s.live[u]
    {
      assert MemberInv(c, s, u);
      assert u !in ExpectedSet(s);
    }
  }

  lemma StepKeepsOneTurn(r: Rules, c: Config, s: State, ph: Phase, t: nat, sig: nat)
    requires Inv(c, s, ph) && OneTurn(s) && c.maxLoop == 1 && Moves(r, c, s, t)
    ensures var s' := Step(r, c, s, t, sig); |s'.members| == SLOTS && OneTurn(s')
  {
    hide PhaseInv;
    hide SleepInv;
    assert MemberInv(c, s, t) && OneTurnOf(s.members[t]);
    if s.members[t].pc == PickAll {
      NobodyToPick(c, s, ph, t);
    } else if s.members[t].pc == Add {
      OwnerIsNegative(c, s, ph, t);
    }
    hide Pick;
    hide StartOf;
    hide FirstFrom;
    var s' := Step(r, c, s, t, sig);
    forall u | 0 <= u < SLOTS
      ensures OneTurnOf(s'.members[u])
    {
      assert OneTurnOf(s.members[u]);
    }
  }

  lemma OwnerIsNegative(c: Config, s: State, ph: Phase, t: nat)
    requires Inv(c, s, ph) && t < SLOTS && s.members[t].pc == Add
    ensures s.owner < 0
  {
    assert MemberInv(c, s, t);
    assert ph.Together? ==> t in ExpectedSet(s);
  }

  // ----- Up to three iterations

  /** In the first turn, which is the group's, nobody is further than one iteration. */
  ghost predicate InFirstTurn(c: Config, s: State, t: nat)
    requires |s.members| == SLOTS && t < SLOTS
  {
    var m := s.members[t];
    && !Alone(m) && (m.pc in {Top, Lead, Round, Batch} || HasRun(m.pc)) && m.pc != WakeAll
    && m.left == if HasRun(m.pc) then c.maxLoop - 1 else c.maxLoop
  }

  /** A leader that has finished is yet to wake the others. */
  ghost predicate WakeIsLate(s: State)
  {
    exists t :: 0 <= t < |s.members| && s.members[t].pc == WakeAll && s.members[t].left == 0
  }

  /** `t` has made at least `n` iterations, and one more if it has executed in the turn in progress. */
  ghost predicate HasMade(c: Config, s: State, t: nat, n: nat)
    requires |s.members| == SLOTS && t < SLOTS
  {
    var m := s.members[t];
    m.left == 0 || m.left + n + (if HasExecuted(s, m) then 1 else 0) <= c.maxLoop
  }

  ghost predicate Credit(c: Config, s: State)
    requires |s.members| == SLOTS
  {
    && (s.round == 0 ==>
          && (s.owner > 0 ==> IsPublishing(s))
          && forall t :: 0 <= t < SLOTS && IsMember(c, t) ==> InFirstTurn(c, s, t))
    && (s.round >= 1 ==> forall t :: 0 <= t < SLOTS && IsMember(c, t) ==> HasMade(c, s, t, 1))
    && (WakeIsLate(s) ==> forall t :: 0 <= t < SLOTS && IsMember(c, t) ==> HasMade(c, s, t, 2))
  }

  predicate IsBump(pc: Pc) { pc in {BumpAll, PickOne} }

  lemma BatchIsOne(maxLoop: nat)
    requires 1 <= maxLoop <= 3
    ensures Shared.BatchSize(maxLoop) == 1
  {
  }

  /** What a step that leaves `round` alone does to the member that makes it. */
  lemma QuietOwn(r: Rules, c: Config, s: State, t: nat, sig: nat)
    requires Moves(r, c, s, t) && !IsBump(s.members[t].pc) && MemberInv(c, s, t) && c.maxLoop <= 3
    ensures var s', m := Step(r, c, s, t, sig), s.members[t];
            && |s'.members| == SLOTS && s'.round == s.round && s'.members[t].pc != WakeAll
            && (if m.pc == Batch then s'.members[t].left == m.left - 1
                else s'.members[t].left == m.left && (HasExecuted(s', s'.members[t]) ==> HasExecuted(s, m)))
  {
    hide Pick;
    hide StartOf;
    hide FirstFrom;
    BatchIsOne(c.maxLoop);
  }

  lemma QuietOther(r: Rules, c: Config, s: State, t: nat, sig: nat, u: nat)
    requires Moves(r, c, s, t) && !IsBump(s.members[t].pc) && s.members[t].pc != BumpOne && u < SLOTS && u != t
    ensures var s' := Step(r, c, s, t, sig);
            && |s'.members| == SLOTS && s'.round == s.round
            && (s'.members[u] == s.members[u] || (s'.members[u] == s.members[u].(pc := Top) && s.members[t].pc in {WakeAll, WakeOne}))
  {
    hide Pick;
    hide StartOf;
    hide FirstFrom;
  }

  lemma QuietKeepsMade(r: Rules, c: Config, s: State, t: nat, sig: nat, u: nat, n: nat)
    requires Moves(r, c, s, t) && !IsBump(s.members[t].pc) && MemberInv(c, s, t) && c.maxLoop <= 3
    requires u < SLOTS && HasMade(c, s, u, n) && s.members[t].pc != BumpOne
    ensures var s' := Step(r, c, s, t, sig); |s'.members| == SLOTS && HasMade(c, s', u, n)
  {
    if u == t {
      QuietOwn(r, c, s, t, sig);
    } else {
      QuietOther(r, c, s, t, sig, u);
    }
    hide Step;
  }

  lemma QuietKeepsLate(r: Rules, c: Config, s: State, t: nat, sig: nat)
    requires Moves(r, c, s, t) && !IsBump(s.members[t].pc) && MemberInv(c, s, t) && c.maxLoop <= 3
    requires s.members[t].pc != BumpOne && WakeIsLate(Step(r, c, s, t, sig))
    ensures WakeIsLate(s)
  {
    var s' := Step(r, c, s, t, sig);
    QuietOwn(r, c, s, t, sig);
    var u :| 0 <= u < SLOTS && s'.members[u].pc == WakeAll && s'.members[u].left == 0;
    if u != t {
      QuietOther(r, c, s, t, sig, u);
    }
    hide Step;
    assert s.members[u].pc == WakeAll;
  }

  lemma FirstTurnOwn(r: Rules, c: Config, s: State, ph: Phase, t: nat, sig: nat)
    requires Inv(c, s, ph) && Moves(r, c, s, t) && s.round == 0 && Credit(c, s) && c.maxLoop <= 3
    requires !IsBump(s.members[t].pc)
    ensures var s' := Step(r, c, s, t, sig);
            |s'.members| == SLOTS && InFirstTurn(c, s', t) && (s'.owner > 0 ==> IsPublishing(s'))
  {
    hide PhaseInv;
    hide SleepInv;
    hide Step;
    hide Moves;
    assert MemberInv(c, s, t) && InFirstTurn(c, s, t) by { MoverIsMember(r, c, s, t); }
    if s.members[t].pc == Top {
      FirstOwner(c, s, ph, t);
    } else if s.members[t].pc == Add {
      OwnerIsNegative(c, s, ph, t);
    }
    FirstTurnMember(r, c, s, t, sig);
    FirstTurnOwner(r, c, s, t, sig);
  }

  lemma MoverIsMember(r: Rules, c: Config, s: State, t: nat)
    requires Moves(r, c, s, t)
    ensures IsMember(c, t) && t < SLOTS == |s.members|
  {
  }

  lemma FirstTurnMember(r: Rules, c: Config, s: State, t: nat, sig: nat)
    requires Moves(r, c, s, t) && MemberInv(c, s, t) && InFirstTurn(c, s, t) && !IsBump(s.members[t].pc) && c.maxLoop <= 3
    requires s.round == 0 && (s.members[t].pc == Top ==> s.owner < 0)
    ensures var s' := Step(r, c, s, t, sig); |s'.members| == SLOTS && InFirstTurn(c, s', t)
  {
    hide Pick;
    hide StartOf;
    hide FirstFrom;
    hide WakeMembers;
    BatchIsOne(c.maxLoop);
    hide Shared.BatchSize;
  }

  lemma FirstTurnOwner(r: Rules, c: Config, s: State, t: nat, sig: nat)
    requires Moves(r, c, s, t) && InFirstTurn(c, s, t) && !IsBump(s.members[t].pc)
    requires (s.owner > 0 ==> IsPublishing(s)) && (s.members[t].pc == Add ==> s.owner < 0)
    ensures var s' := Step(r, c, s, t, sig); s'.owner > 0 ==> IsPublishing(s')
  {
    hide Pick;
    hide StartOf;
    hide FirstFrom;
    hide WakeMembers;
    var s' := Step(r, c, s, t, sig);
    if s'.owner > 0 {
      if s.members[t].pc == PickAll {
        assert s'.members[t].pc == BumpAll;
      } else {
        var w :| 0 <= w < SLOTS && s.members[w].pc == BumpAll;
        assert s'.members[w].pc == BumpAll;
      }
    }
  }

  lemma FirstOwner(c: Config, s: State, ph: Phase, t: nat)
    requires Inv(c, s, ph) && t < SLOTS && s.members[t].pc == Top && s.members[t].left > 0
    requires s.owner > 0 ==> IsPublishing(s)
    ensures s.owner < 0
  {
    assert MemberInv(c, s, t);
    assert Expected(s, t);
    assert forall w :: 0 <= w < SLOTS && s.members[w].pc == BumpAll ==> After(s, s.members[w]);
    assert t in ExpectedSet(s);
  }

  lemma QuietKeepsCredit(r: Rules, c: Config, s: State, ph: Phase, t: nat, sig: nat)
    requires Inv(c, s, ph) && Moves(r, c, s, t) && Credit(c, s) && c.maxLoop <= 3 && !IsBump(s.members[t].pc)
    ensures var s' := Step(r, c, s, t, sig); |s'.members| == SLOTS && Credit(c, s')
  {
    hide PhaseInv;
    hide SleepInv;
    hide HasMade;
    hide WakeIsLate;
    hide Step;
    var s' := Step(r, c, s, t, sig);
    assert MemberInv(c, s, t);
    QuietOwn(r, c, s, t, sig);
    if s.round == 0 {
      FirstTurnOwn(r, c, s, ph, t, sig);
    }
    if WakeIsLate(s') {
      QuietKeepsLate(r, c, s, t, sig);
    }
    forall u | 0 <= u < SLOTS && IsMember(c, u)
      ensures s.round == 0 ==> InFirstTurn(c, s', u)
      ensures s.round >= 1 ==> HasMade(c, s', u, 1)
      ensures WakeIsLate(s') ==> HasMade(c, s', u, 2)
    {
      if s.round == 0 {
        assert InFirstTurn(c, s, t) && InFirstTurn(c, s, u);
        if u != t {
          QuietOther(r, c, s, t, sig, u);
        }
      } else {
        QuietKeepsMade(r, c, s, t, sig, u, 1);
      }
      if WakeIsLate(s') {
        QuietKeepsMade(r, c, s, t, sig, u, 2);
      }
    }
  }

  /** When a turn ends, all who are still live have executed in it or had no part in it. */
  lemma AtTurnEnd(c: Config, s: State, ph: Phase, t: nat, u: nat)
    requires Inv(c, s, ph) && t < SLOTS && IsBump(s.members[t].pc) && u < SLOTS && u != t
    ensures !HasExecuted(s, s.members[u]) || After(s, s.members[u])
    ensures s.members[t].pc == BumpAll ==> s.members[u].left == 0 || HasExecuted(s, s.members[u])
  {
    NobodyElse(c, s, ph, t);
    PublisherIsPhase(c, s, ph, t);
    assert MemberInv(c, s, u) && MemberInv(c, s, t);
    assert s.members[t].pc == BumpAll ==> After(s, s.members[t]);
    if s.members[t].pc == BumpAll && s.live[u] {
      assert ph.Publishing?;
      assert !Expected(s, u);
    }
  }

  lemma BumpKeepsMade(r: Rules, c: Config, s: State, ph: Phase, t: nat, sig: nat, u: nat)
    requires Inv(c, s, ph) && Moves(r, c, s, t) && Credit(c, s) && IsBump(s.members[t].pc) && IsMember(c, u)
    requires Harmless(r, s, t)
    ensures var s' := Step(r, c, s, t, sig);
            && |s'.members| == SLOTS && s'.round == s.round + 1 && HasMade(c, s', u, 1)
            && (WakeIsLate(s) || (s.members[t].pc == BumpAll && s.members[t].left == 0) ==> HasMade(c, s', u, 2))
  {
    var s' := Step(r, c, s, t, sig);
    StepOfPublisher(r, c, s, t, sig);
    PublisherLeft(r, c, s, t, sig);
    hide Step;
    hide Harmless;
    assert MemberInv(c, s, t) && MemberInv(c, s, u);
    assert s.round == 0 ==> InFirstTurn(c, s, u) && InFirstTurn(c, s, t);
    if u != t {
      AtTurnEnd(c, s, ph, t, u);
    }
    hide PhaseInv;
    hide SleepInv;
    assert !HasExecuted(s', s'.members[u]);
    assert s.round >= 1 ==> HasMade(c, s, u, 1);
    assert WakeIsLate(s) ==> HasMade(c, s, u, 2);
  }

  lemma PublisherLeft(r: Rules, c: Config, s: State, t: nat, sig: nat)
    requires Moves(r, c, s, t) && IsBump(s.members[t].pc) && Harmless(r, s, t)
    ensures var s', m := Step(r, c, s, t, sig), s.members[t];
            && |s'.members| == SLOTS && s'.members[t] == m.(pc := if m.pc == BumpAll then WakeAll else WakeOne)
  {
    hide Pick;
    hide StartOf;
    hide FirstFrom;
  }

  lemma BumpKeepsCredit(r: Rules, c: Config, s: State, ph: Phase, t: nat, sig: nat)
    requires Inv(c, s, ph) && Moves(r, c, s, t) && Credit(c, s) && IsBump(s.members[t].pc) && Harmless(r, s, t)
    ensures var s' := Step(r, c, s, t, sig); |s'.members| == SLOTS && Credit(c, s')
  {
    var s' := Step(r, c, s, t, sig);
    StepOfPublisher(r, c, s, t, sig);
    PublisherLeft(r, c, s, t, sig);
    hide Step;
    hide Harmless;
    hide Inv;
    hide HasMade;
    hide Credit;
    forall u | 0 <= u < SLOTS && IsMember(c, u)
      ensures HasMade(c, s', u, 1)
      ensures WakeIsLate(s') ==> HasMade(c, s', u, 2)
    {
      BumpKeepsMade(r, c, s, ph, t, sig, u);
      if w :| 0 <= w < SLOTS && s'.members[w].pc == WakeAll && s'.members[w].left == 0 {
        assert w == t || s.members[w].pc == WakeAll;
      }
    }
    CreditLater(c, s');
  }

  lemma CreditLater(c: Config, s: State)
    requires |s.members| == SLOTS && s.round >= 1
    requires forall t :: 0 <= t < SLOTS && IsMember(c, t) ==> HasMade(c, s, t, 1) && (WakeIsLate(s) ==> HasMade(c, s, t, 2))
    ensures Credit(c, s)
  {
  }

  // ----- Why no step does harm

  /** A leader that wakes while somebody already waits for the present round has left the group. */
  lemma LateWaker(c: Config, s: State, ph: Phase, t: nat, u: nat)
    requires Inv(c, s, ph) && t < SLOTS && u < SLOTS
    requires s.members[t].pc == WakeAll && s.live[u] && WaitsForThisRound(s, u)
    ensures s.members[t].left == 0 && (ph.Together? || ph.Publishing?) && IsMember(c, t) && IsMember(c, u)
    ensures ph.l != t && ph.l != u && t != u && IsMember(c, ph.l)
  {
    assert MemberInv(c, s, t) && MemberInv(c, s, u);
    assert After(s, s.members[u]) && HasLed(s, u);
    assert s.live[t] ==> Expected(s, t);
    assert t in ExpectedSet(s) <==> Expected(s, t);
  }

  ghost predicate Extra(c: Config, s: State)
    requires |s.members| == SLOTS
  {
    && (c.maxLoop == 1 ==> OneTurn(s))
    && (c.maxLoop <= 3 ==> Credit(c, s))
  }

  lemma RulesMakeHarmless(r: Rules, c: Config, s: State, ph: Phase, t: nat)
    requires RulesSuffice(r, c) && Inv(c, s, ph) && Extra(c, s) && Moves(r, c, s, t)
    ensures Harmless(r, s, t)
  {
    assert MemberInv(c, s, t);
    assert c.maxLoop == 1 ==> OneTurnOf(s.members[t]);
    if s.members[t].pc == WakeAll && !r.exactWakes {
      forall u | 0 <= u < SLOTS && s.live[u]
        ensures !WaitsForThisRound(s, u)
      {
        if WaitsForThisRound(s, u) {
          LateWaker(c, s, ph, t, u);
          LateMeansMore(r, c, s, t, u, ph.l);
        }
      }
    }
  }

  lemma LateMeansMore(r: Rules, c: Config, s: State, t: nat, u: nat, l: nat)
    requires RulesSuffice(r, c) && !r.exactWakes && |s.members| == SLOTS && Extra(c, s)
    requires IsMember(c, t) && IsMember(c, u) && IsMember(c, l) && l != t && l != u && t != u
    requires s.members[t].pc == WakeAll && s.members[t].left == 0 && s.live[u] && MemberInv(c, s, u)
    ensures !WaitsForThisRound(s, u)
  {
    assert WakeIsLate(s);
    assert c.maxLoop <= 3 ==> HasMade(c, s, u, 2);
  }

  lemma StepKeepsExtra(r: Rules, c: Config, s: State, ph: Phase, t: nat, sig: nat)
    requires Inv(c, s, ph) && Extra(c, s) && Moves(r, c, s, t) && Harmless(r, s, t)
    ensures var s' := Step(r, c, s, t, sig); |s'.members| == SLOTS && Extra(c, s')
  {
    hide OneTurn;
    hide Credit;
    hide Step;
    if c.maxLoop == 1 {
      StepKeepsOneTurn(r, c, s, ph, t, sig);
    }
    if c.maxLoop <= 3 {
      if IsBump(s.members[t].pc) {
        BumpKeepsCredit(r, c, s, ph, t, sig);
      } else {
        QuietKeepsCredit(r, c, s, ph, t, sig);
      }
    }
    StepKeepsInv(r, c, s, ph, t, sig);
    InvSized(c, Step(r, c, s, t, sig), PhaseAfter(s, Step(r, c, s, t, sig), ph, t));
  }

  lemma InitExtra(c: Config)
    ensures Extra(c, Init(c))
  {
  }

  // ----- Runs under rules that suffice

  ghost predicate Good(c: Config, s: State)
  {
    HasTurn(c, s) && |s.members| == SLOTS && Extra(c, s)
  }

  lemma InitGood(c: Config)
    ensures Good(c, Init(c))
  {
    InitInv(c);
    InitExtra(c);
  }

  lemma GoodStep(r: Rules, c: Config, s: State, t: nat, sig: nat)
    requires RulesSuffice(r, c) && Good(c, s) && Moves(r, c, s, t)
    ensures var s' := Step(r, c, s, t, sig);
            && Good(c, s') && Left(s') < Left(s)
            && s'.round + TurnsLeft(s') <= s.round + TurnsLeft(s)
  {
    hide Extra;
    hide Step;
    hide Left;
    hide TurnsLeft;
    hide Harmless;
    var ph :| Inv(c, s, ph);
    hide Inv;
    RulesMakeHarmless(r, c, s, ph, t);
    StepKeepsInv(r, c, s, ph, t, sig);
    StepKeepsExtra(r, c, s, ph, t, sig);
    StepDecreases(r, c, s, ph, t, sig);
    TurnsDecrease(r, c, s, ph, t, sig);
    NeverBumpOne(c, s, ph, t);
    RoundGrows(r, c, s, t, sig);
  }
}
