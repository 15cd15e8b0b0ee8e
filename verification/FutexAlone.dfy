/**
 A group of racey-futex.c with a single member needs no rules.  Between the two assignments of a
 publication nobody can look, so the state in between may be taken for the one after.
 */
module FutexAlone {
  import opened FutexGroup
  import opened FutexRounds
  import opened FutexSafety
  import opened FutexProgress
  import opened FutexConditions

  predicate IsMidway(c: Config, s: State)
  {
    |s.members| == SLOTS && Size(c) == 1 && s.members[c.begin].pc == BumpOne
  }

  /** `s`, with a publication that is under way brought to its end. */
  function Published(c: Config, s: State): State
  {
    if IsMidway(c, s)
    then s.(round := s.round + 1, members := s.members[c.begin := s.members[c.begin].(pc := WakeOne)])
    else s
  }

  ghost predicate AloneInv(c: Config, s: State)
  {
    && Size(c) <= 1 && |s.members| == SLOTS && HasTurn(c, Published(c, s))
    && (IsMidway(c, s) ==> s.members[c.begin].oldRound == s.round)
  }

  lemma OnlyMember(c: Config, s: State, t: nat)
    requires AloneInv(c, s) && t < SLOTS && !IsMember(c, t)
    ensures s.members[t].pc == Returned && !s.live[t]
  {
    var p := Published(c, s);
    var ph :| Inv(c, p, ph);
    assert MemberInv(c, p, t);
  }

  lemma OthersAreGone(c: Config, s: State, t: nat)
    requires AloneInv(c, s) && IsMember(c, t)
    ensures forall u :: 0 <= u < SLOTS && u != t ==> s.members[u].pc == Returned && !s.live[u]
  {
    hide HasTurn;
    forall u | 0 <= u < SLOTS && u != t
      ensures s.members[u].pc == Returned && !s.live[u]
    {
      OnlyMember(c, s, u);
    }
  }

  /** One member steps as under all rules, but for publications. */
  lemma StepOfOne(r: Rules, c: Config, s: State, t: nat, sig: nat)
    requires Moves(r, c, s, t) && s.members[t].pc !in {BumpOne, PickOne}
    requires forall u :: 0 <= u < SLOTS && u != t ==> s.members[u].pc == Returned && !s.live[u]
    ensures Moves(ALL_RULES, c, s, t) && Step(ALL_RULES, c, s, t, sig) == Step(r, c, s, t, sig)
    ensures |Step(r, c, s, t, sig).members| == SLOTS && Step(r, c, s, t, sig).members[t].pc != BumpOne
  {
    hide Pick;
    hide StartOf;
    hide FirstFrom;
    assert s.members[t].pc == Leave && s.members[t].owner < 0 ==> AllLed(s);
    assert Step(ALL_RULES, c, s, t, sig).members == Step(r, c, s, t, sig).members;
  }

  lemma StepAlone(r: Rules, c: Config, s: State, t: nat, sig: nat)
    requires AloneInv(c, s) && Moves(r, c, s, t)
    ensures var s' := Step(r, c, s, t, sig);
            if s.members[t].pc == BumpOne then IsMidway(c, s) && s' == Published(c, s)
            else !IsMidway(c, s) && Moves(ALL_RULES, c, s, t)
                 && Published(c, s') == Step(ALL_RULES, c, s, t, sig)
                 && (IsMidway(c, s') ==> s.members[t].pc == PickOne && s'.members[t].oldRound == s.members[t].oldRound
                                         && s'.round == s.round)
  {
    OthersAreGone(c, s, t);
    hide HasTurn;
    if s.members[t].pc !in {BumpOne, PickOne} {
      StepOfOne(r, c, s, t, sig);
      hide Step;
    } else {
      hide Pick;
      hide StartOf;
      hide FirstFrom;
      hide WakeMembers;
      assert Published(c, Step(r, c, s, t, sig)).members == Step(ALL_RULES, c, s, t, sig).members;
    }
  }

  lemma MidwayRound(c: Config, s: State, t: nat)
    requires HasTurn(c, s) && |s.members| == SLOTS && t < SLOTS && s.members[t].pc == PickOne
    ensures s.members[t].oldRound == s.round
  {
    var ph :| Inv(c, s, ph);
    assert MemberInv(c, s, t);
  }

  function Budget(c: Config, s: State): int
  {
    2 * Left(Published(c, s)) + if IsMidway(c, s) then 1 else 0
  }

  lemma StepKeepsAlone(r: Rules, c: Config, s: State, t: nat, sig: nat)
    requires AloneInv(c, s) && Moves(r, c, s, t)
    ensures var s' := Step(r, c, s, t, sig);
            && AloneInv(c, s') && Budget(c, s') < Budget(c, s)
            && var p, p' := Published(c, s), Published(c, s'); p'.round + TurnsLeft(p') <= p.round + TurnsLeft(p)
  {
    hide HasTurn;
    hide Left;
    hide TurnsLeft;
    hide Step;
    hide Harmless;
    StepAlone(r, c, s, t, sig);
    var s' := Step(r, c, s, t, sig);
    if s.members[t].pc != BumpOne {
      if s.members[t].pc == PickOne {
        MidwayRound(c, s, t);
      }
      AllRulesStep(c, s, t, sig);
    }
  }

  lemma AllRulesStep(c: Config, s: State, t: nat, sig: nat)
    requires HasTurn(c, s) && Moves(ALL_RULES, c, s, t)
    ensures var s' := Step(ALL_RULES, c, s, t, sig);
            && |s'.members| == SLOTS && HasTurn(c, s') && Left(s') < Left(s)
            && s'.round + TurnsLeft(s') <= s.round + TurnsLeft(s)
  {
    var ph :| Inv(c, s, ph);
    assert Harmless(ALL_RULES, s, t);
    hide Inv;
    hide Step;
    hide Left;
    hide TurnsLeft;
    StepKeepsInv(ALL_RULES, c, s, ph, t, sig);
    InvSized(c, Step(ALL_RULES, c, s, t, sig), PhaseAfter(s, Step(ALL_RULES, c, s, t, sig), ph, t));
    StepDecreases(ALL_RULES, c, s, ph, t, sig);
    TurnsDecrease(ALL_RULES, c, s, ph, t, sig);
    NeverBumpOne(c, s, ph, t);
    RoundGrows(ALL_RULES, c, s, t, sig);
  }

  lemma MidwayIsSafe(c: Config, s: State)
    requires IsMidway(c, s) && s.members[c.begin].oldRound == s.round
    requires forall t :: 0 <= t < SLOTS ==> t == c.begin || (s.members[t].pc == Returned && !s.live[t])
    ensures RoundSafe(s)
  {
    forall t | 0 <= t < SLOTS
      ensures !Inside(s.members[t]) && !After(s, s.members[t]) && !PastBarrier(s, s.members[t])
      ensures Publishes(s.members[t]) || Alone(s.members[t]) ==> t == c.begin
      ensures !Executes(s.members[t])
    {
    }
    hide Inside;
    hide After;
    hide PastBarrier;
    hide Publishes;
    hide Alone;
    hide Executes;
  }

  lemma AloneIsSafe(c: Config, s: State)
    requires AloneInv(c, s)
    ensures RoundSafe(s)
  {
    hide HasTurn;
    hide RoundSafe;
    if IsMidway(c, s) {
      forall t | 0 <= t < SLOTS
        ensures t == c.begin || (s.members[t].pc == Returned && !s.live[t])
      {
        if t != c.begin {
          OnlyMember(c, s, t);
        }
      }
      MidwayIsSafe(c, s);
    } else {
      InvIsSafe(c, s);
    }
  }

  lemma AloneStuck(r: Rules, c: Config, s: State)
    requires AloneInv(c, s) && Stuck(r, c, s)
    ensures Finished(s)
  {
    assert IsMidway(c, s) ==> Moves(r, c, s, c.begin);
    StuckIsFinished(r, c, s);
  }
}
