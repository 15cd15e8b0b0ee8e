/** What every step of a group of racey-futex.c keeps, under the rules. */
module FutexSafety {
  import opened FutexGroup
  import opened FutexRounds

  lemma InitInv(c: Config)
    ensures var ph := if c.begin == c.end then Over else Together(c.begin); Inv(c, Init(c), ph)
  {
    var s := Init(c);
    forall t | 0 <= t < SLOTS
      ensures MemberInv(c, s, t) && SleepInv(s, t)
    {
    }
    InitPhase(c);
    hide MemberInv;
    hide SleepInv;
    hide PhaseInv;
  }

  lemma InitPhase(c: Config)
    ensures PhaseInv(c, Init(c), if c.begin == c.end then Over else Together(c.begin))
  {
    var s := Init(c);
    RangeSize(s.live, c.begin, c.end, SLOTS);
    assert ExpectedSet(s) == Members(s.live, SLOTS);
    assert c.begin < c.end ==> s.live[c.begin];
  }

  lemma {:induction false} RangeSize(live: Slots, begin: nat, end: nat, n: nat)
    requires begin <= end <= SLOTS && n <= SLOTS
    requires forall k :: 0 <= k < SLOTS ==> live[k] == (begin <= k < end)
    ensures |Members(live, n)| == if n <= begin then 0 else if n <= end then n - begin else end - begin
  {
    if n == 0 {
      assert Members(live, 0) == {};
    } else {
      RangeSize(live, begin, end, n - 1);
      assert Members(live, n) == Members(live, n - 1) + if live[n-1] then {n - 1} else {};
    }
  }

  // ----- Steps that only change the member that moves

  predicate IsLocal(pc: Pc) { pc in {Top, Lead, Round, Batch, Spin, WaitRound, WaitOwner} }

  lemma LocalFrame(r: Rules, c: Config, s: State, t: nat, sig: nat)
    requires Moves(r, c, s, t) && IsLocal(s.members[t].pc)
    ensures var s' := Step(r, c, s, t, sig);
            && s'.owner == s.owner && s'.round == s.round && s'.live == s.live
            && |s'.members| == SLOTS
            && forall u :: 0 <= u < SLOTS && u != t ==> s'.members[u] == s.members[u]
  {
  }

  lemma LocalMember(r: Rules, c: Config, s: State, ph: Phase, t: nat, sig: nat)
    requires Inv(c, s, ph) && Moves(r, c, s, t) && IsLocal(s.members[t].pc)
    ensures MemberInv(c, Step(r, c, s, t, sig), t) && SleepInv(Step(r, c, s, t, sig), t)
  {
    assert MemberInv(c, s, t);
    if s.members[t].pc == Top && s.owner == 0 {
      NoOwnerNoLive(c, s, ph, t);
    }
  }

  /** When `owner` is 0, a member at the top of its loop is finished. */
  lemma NoOwnerNoLive(c: Config, s: State, ph: Phase, t: nat)
    requires Inv(c, s, ph) && t < SLOTS && s.owner == 0 && s.members[t].pc == Top
    ensures !s.live[t]
  {
    assert MemberInv(c, s, t);
    assert s.live[t] ==> t in ExpectedSet(s);
  }

  /** How a local step moves a member through the turn. */
  lemma LocalClass(r: Rules, c: Config, s: State, ph: Phase, t: nat, sig: nat)
    requires Inv(c, s, ph) && Moves(r, c, s, t) && IsLocal(s.members[t].pc)
    ensures LocalMove(s, Step(r, c, s, t, sig), t)
  {
    assert MemberInv(c, s, t);
    if s.members[t].pc == Top && s.owner == 0 {
      NoOwnerNoLive(c, s, ph, t);
    }
    LocalClassOf(r, c, s, t, sig);
  }

  ghost predicate LocalMove(s: State, s': State, t: nat)
    requires t < |s.members| == SLOTS
  {
    && |s'.members| == SLOTS
    && var m, m' := s.members[t], s'.members[t];
    && m'.pc != BumpAll
    && (After(s', m') <==> After(s, m))
    && (Alone(m') <==> Alone(m) || (m.pc == Top && m.left > 0 && s.owner == t))
    && (Inside(m') <==> Inside(m) || (m.pc == Top && m.left > 0 && s.owner < 0))
    && (Expected(s', t) <==> !(m.pc == Top && m.left > 0 && s.owner == t) && Expected(s, t))
    && (HasLed(s, t) ==> HasLed(s', t) && m'.leader == m.leader)
    && (HasLed(s', t) && !HasLed(s, t) ==> m.pc == Lead && m.owner < 0)
    && (m.pc == Lead && m.owner < 0 ==> m'.leader == (LeaderOf(s.live) == t))
    && (m'.pc == Spin ==> m.pc == Spin) && (After(s, m) && m.pc != Spin ==> m'.pc != Spin)
  }

  lemma LocalClassOf(r: Rules, c: Config, s: State, t: nat, sig: nat)
    requires Moves(r, c, s, t) && IsLocal(s.members[t].pc) && MemberInv(c, s, t)
    requires s.members[t].pc == Top && s.owner == 0 ==> !s.live[t]
    ensures LocalMove(s, Step(r, c, s, t, sig), t)
  {
    hide Pick;
    hide StartOf;
    hide WakeMembers;
  }

  lemma LocalKeepsPhase(r: Rules, c: Config, s: State, ph: Phase, t: nat, sig: nat)
    requires Inv(c, s, ph) && Moves(r, c, s, t) && IsLocal(s.members[t].pc)
    ensures PhaseInv(c, Step(r, c, s, t, sig), ph)
  {
    var s', m := Step(r, c, s, t, sig), s.members[t];
    LocalFrame(r, c, s, t, sig);
    LocalClass(r, c, s, ph, t, sig);
    assert MemberInv(c, s, t);
    match ph
    case Solo(o) => LocalKeepsSolo(r, c, s, o, t, sig);
    case Together(l) => LocalKeepsTogether(r, c, s, l, t, sig);
    case Publishing(l) => LocalKeepsPublishing(r, c, s, l, t, sig);
    case Over => LocalKeepsOver(r, c, s, t, sig);
  }

  lemma LocalKeepsSolo(r: Rules, c: Config, s: State, o: nat, t: nat, sig: nat)
    requires Inv(c, s, Solo(o)) && Moves(r, c, s, t) && IsLocal(s.members[t].pc)
    ensures PhaseInv(c, Step(r, c, s, t, sig), Solo(o))
  {
    LocalFrame(r, c, s, t, sig);
    LocalClass(r, c, s, Solo(o), t, sig);
    hide Step;
  }

  lemma LocalKeepsOver(r: Rules, c: Config, s: State, t: nat, sig: nat)
    requires Inv(c, s, Over) && Moves(r, c, s, t) && IsLocal(s.members[t].pc)
    ensures PhaseInv(c, Step(r, c, s, t, sig), Over)
  {
    LocalFrame(r, c, s, t, sig);
    LocalClass(r, c, s, Over, t, sig);
    assert MemberInv(c, s, t);
    hide Step;
  }

  lemma LocalKeepsPublishing(r: Rules, c: Config, s: State, l: nat, t: nat, sig: nat)
    requires Inv(c, s, Publishing(l)) && Moves(r, c, s, t) && IsLocal(s.members[t].pc)
    ensures PhaseInv(c, Step(r, c, s, t, sig), Publishing(l))
  {
    LocalFrame(r, c, s, t, sig);
    LocalClass(r, c, s, Publishing(l), t, sig);
    assert MemberInv(c, s, t);
    assert s.members[t].pc == Top ==> s.members[t].left == 0;
    assert !HasLed(s, t) || Step(r, c, s, t, sig).members[t].leader == s.members[t].leader;
    hide Step;
  }

  lemma LocalKeepsTogether(r: Rules, c: Config, s: State, l: nat, t: nat, sig: nat)
    requires Inv(c, s, Together(l)) && Moves(r, c, s, t) && IsLocal(s.members[t].pc)
    ensures PhaseInv(c, Step(r, c, s, t, sig), Together(l))
  {
    hide Step;
    hide SleepInv;
    var s', m := Step(r, c, s, t, sig), s.members[t];
    LocalFrame(r, c, s, t, sig);
    LocalClass(r, c, s, Together(l), t, sig);
    assert MemberInv(c, s, t);
    assert ExpectedSet(s') == ExpectedSet(s);
    if m.pc == Lead && m.owner < 0 {
      assert s.live[t] && !HasLed(s, t);
      assert LeaderOf(s.live) == FirstFrom(s.live, 0);
    }
  }

  lemma LocalKeepsInv(r: Rules, c: Config, s: State, ph: Phase, t: nat, sig: nat)
    requires Inv(c, s, ph) && Moves(r, c, s, t) && IsLocal(s.members[t].pc)
    ensures Inv(c, Step(r, c, s, t, sig), ph)
  {
    var s' := Step(r, c, s, t, sig);
    LocalFrame(r, c, s, t, sig);
    LocalMember(r, c, s, ph, t, sig);
    LocalKeepsPhase(r, c, s, ph, t, sig);
    hide Step;
    hide PhaseInv;
    forall u | 0 <= u < SLOTS && u != t
      ensures MemberInv(c, s', u) && SleepInv(s', u)
    {
      assert MemberInv(c, s, u) && SleepInv(s, u);
    }
  }

  // ----- Wakes

  /** `u` plays the same part in the turn before and after. */
  ghost predicate SameClass(s: State, s': State, u: nat)
    requires |s.members| == |s'.members| == SLOTS && u < SLOTS
  {
    var m, m' := s.members[u], s'.members[u];
    && (Inside(m') <==> Inside(m)) && (Alone(m') <==> Alone(m)) && (After(s', m') <==> After(s, m))
    && (Expected(s', u) <==> Expected(s, u)) && (HasLed(s', u) <==> HasLed(s, u))
    && m'.leader == m.leader && (m'.pc == BumpAll <==> m.pc == BumpAll)
    && (After(s, m) ==> (m'.pc == Spin <==> m.pc == Spin))
  }

  /** `u` is finished and is woken before the turn that it waits for ends. */
  ghost predicate Retires(s: State, s': State, u: nat)
    requires |s.members| == |s'.members| == SLOTS && u < SLOTS
  {
    var m, m' := s.members[u], s'.members[u];
    && !s.live[u] && m.pc == AsleepRound && !m.leader
    && !Inside(m') && !Alone(m') && !After(s', m') && !Expected(s', u) && !HasLed(s', u) && m'.pc != BumpAll
  }

  lemma SameClassSamePhase(c: Config, s: State, s': State, ph: Phase)
    requires |s.members| == |s'.members| == SLOTS && PhaseInv(c, s, ph)
    requires s'.owner == s.owner && s'.round == s.round && s'.live == s.live
    requires forall u :: 0 <= u < SLOTS ==> SameClass(s, s', u) || Retires(s, s', u)
    ensures PhaseInv(c, s', ph)
  {
    forall u | 0 <= u < SLOTS
      ensures Expected(s', u) <==> Expected(s, u)
      ensures (Inside(s'.members[u]) <==> Inside(s.members[u])) && (Alone(s'.members[u]) <==> Alone(s.members[u]))
      ensures s'.members[u].pc == BumpAll <==> s.members[u].pc == BumpAll
      ensures s.live[u] ==> (HasLed(s', u) <==> HasLed(s, u))
      ensures HasLed(s', u) ==> HasLed(s, u) && s'.members[u].leader == s.members[u].leader
      ensures After(s', s'.members[u]) ==>
                After(s, s.members[u]) && s'.members[u].leader == s.members[u].leader
                && (s'.members[u].pc == Spin <==> s.members[u].pc == Spin)
    {
      assert SameClass(s, s', u) || Retires(s, s', u);
    }
    assert ExpectedSet(s') == ExpectedSet(s);
    assert AllLed(s) == AllLed(s');
    match ph
    case Solo(o) => assert SameClass(s, s', o) || Retires(s, s', o);
    case Together(l) => LeaderStays(c, s, s', l);
    case Publishing(l) => assert SameClass(s, s', l) || Retires(s, s', l);
    case Over =>
  }

  lemma LeaderStays(c: Config, s: State, s': State, l: nat)
    requires |s.members| == |s'.members| == SLOTS && PhaseInv(c, s, Together(l)) && s'.round == s.round
    requires SameClass(s, s', l) || Retires(s, s', l)
    ensures Expected(s', l) || After(s', s'.members[l])
  {
    assert After(s, s.members[l]) ==> HasLed(s, l);
  }

  lemma WakeFrame(r: Rules, c: Config, s: State, t: nat, sig: nat, u: nat)
    requires Moves(r, c, s, t) && s.members[t].pc in {WakeAll, WakeOne} && u < SLOTS && Harmless(r, s, t)
    ensures var s' := Step(r, c, s, t, sig);
            && s'.owner == s.owner && s'.round == s.round && s'.live == s.live && |s'.members| == SLOTS
            && (s'.members[u] == s.members[u] || s'.members[u] == s.members[u].(pc := Top))
            && (u != t && s'.members[u] != s.members[u] ==>
                 if s.members[t].pc == WakeOne then s.members[u].pc == AsleepOwner
                 else s.members[u].pc == AsleepRound && (s.members[u].oldRound != s.round || !s.live[u]))
            && (u == t || (s.members[t].pc == WakeOne && s.members[u].pc == AsleepOwner)
                || (s.members[t].pc == WakeAll && s.members[u].pc == AsleepRound && s.members[u].oldRound != s.round) ==>
                  s'.members[u].pc == Top)
  {
    hide Pick;
    hide StartOf;
  }

  lemma WakeMember(r: Rules, c: Config, s: State, t: nat, sig: nat, u: nat)
    requires Moves(r, c, s, t) && s.members[t].pc in {WakeAll, WakeOne} && u < SLOTS && MemberInv(c, s, u)
    requires Harmless(r, s, t)
    ensures var s' := Step(r, c, s, t, sig);
            && s'.owner == s.owner && s'.round == s.round && s'.live == s.live && |s'.members| == SLOTS
            && MemberInv(c, s', u) && (SameClass(s, s', u) || Retires(s, s', u))
  {
    hide Step;
    hide Harmless;
    WakeFrame(r, c, s, t, sig, u);
  }

  lemma WakeSleep(r: Rules, c: Config, s: State, t: nat, sig: nat, u: nat)
    requires Moves(r, c, s, t) && s.members[t].pc in {WakeAll, WakeOne} && u < SLOTS && SleepInv(s, u)
    requires Harmless(r, s, t)
    ensures SleepInv(Step(r, c, s, t, sig), u)
  {
    hide Step;
    hide Harmless;
    var s', m := Step(r, c, s, t, sig), s.members[u];
    WakeFrame(r, c, s, t, sig, u);
    if m.pc == AsleepOwner && s.members[t].pc == WakeAll && m.owner != s.owner {
      var w :| 0 <= w < SLOTS && s.members[w].pc == WakeOne;
      WakeFrame(r, c, s, t, sig, w);
      assert s'.members[w].pc == WakeOne;
    }
    if m.pc == AsleepRound && s.members[t].pc == WakeOne && m.oldRound != s.round {
      var w :| 0 <= w < SLOTS && s.members[w].pc == WakeAll;
      WakeFrame(r, c, s, t, sig, w);
      assert s'.members[w].pc == WakeAll;
    }
  }

  lemma WakeKeepsInv(r: Rules, c: Config, s: State, ph: Phase, t: nat, sig: nat)
    requires Inv(c, s, ph) && Moves(r, c, s, t) && s.members[t].pc in {WakeAll, WakeOne} && Harmless(r, s, t)
    ensures Inv(c, Step(r, c, s, t, sig), ph)
  {
    hide PhaseInv;
    hide Step;
    hide SameClass;
    hide Retires;
    hide Harmless;
    var s' := Step(r, c, s, t, sig);
    forall u | 0 <= u < SLOTS
      ensures |s'.members| == SLOTS && MemberInv(c, s', u) && SleepInv(s', u)
      ensures SameClass(s, s', u) || Retires(s, s', u)
    {
      assert MemberInv(c, s, u) && SleepInv(s, u);
      WakeMember(r, c, s, t, sig, u);
      WakeSleep(r, c, s, t, sig, u);
    }
    WakeMember(r, c, s, t, sig, t);
    SameClassSamePhase(c, s, s', ph);
  }

  // ----- Members that do not move

  ghost predicate OnlyMoves(s: State, s': State, t: nat)
  {
    && |s.members| == |s'.members| == SLOTS && t < SLOTS
    && forall u :: 0 <= u < SLOTS && u != t ==> s'.members[u] == s.members[u] && s'.live[u] == s.live[u]
  }

  lemma OtherMember(c: Config, s: State, s': State, t: nat, u: nat)
    requires OnlyMoves(s, s', t) && u < SLOTS && u != t && MemberInv(c, s, u)
    requires s'.round == s.round || (s'.round > s.round && !Inside(s.members[u]) && !Alone(s.members[u])
                                     && s.members[u].pc !in {PickAll, BumpAll}
                                     && (After(s, s.members[u]) ==> !s.members[u].leader))
    ensures MemberInv(c, s', u)
  {
  }

  lemma OtherSleep(s: State, s': State, t: nat, u: nat)
    requires OnlyMoves(s, s', t) && u < SLOTS && u != t && SleepInv(s, u)
    requires s.members[t].pc !in {WakeOne, WakeAll}
    requires s.members[u].pc == AsleepOwner ==>
               s'.owner == s.owner || s.members[u].owner != s.owner || s'.members[t].pc == WakeOne
    requires s.members[u].pc == AsleepRound ==>
               s'.round == s.round || s.members[u].oldRound != s.round || s'.members[t].pc == WakeAll
    ensures SleepInv(s', u)
  {
    if w :| 0 <= w < SLOTS && s.members[w].pc == WakeOne {
      assert s'.members[w].pc == WakeOne;
    }
    if w :| 0 <= w < SLOTS && s.members[w].pc == WakeAll {
      assert s'.members[w].pc == WakeAll;
    }
  }

  // ----- Leaving, and the execution barrier

  lemma LeaveStep(r: Rules, c: Config, s: State, t: nat, sig: nat)
    requires Moves(r, c, s, t) && s.members[t].pc == Leave && MemberInv(c, s, t)
    requires Harmless(r, s, t)
    ensures var s', m := Step(r, c, s, t, sig), s.members[t];
            && OnlyMoves(s, s', t) && s'.owner == s.owner && s'.round == s.round
            && s'.live == (if m.left == 0 then s.live[t := false] else s.live)
            && MemberInv(c, s', t) && SleepInv(s', t) && SameClass(s, s', t)
            && (m.owner < 0 && m.left == 0 ==> AllLed(s))
  {
    hide Pick;
    hide StartOf;
    hide WakeMembers;
  }

  lemma LeaveKeepsPhase(c: Config, s: State, s': State, ph: Phase, t: nat)
    requires Inv(c, s, ph) && OnlyMoves(s, s', t) && s.members[t].pc == Leave
    requires s'.owner == s.owner && s'.round == s.round && SameClass(s, s', t)
    requires s'.live == if s.members[t].left == 0 then s.live[t := false] else s.live
    requires s.members[t].owner < 0 && s.members[t].left == 0 ==> AllLed(s)
    ensures PhaseInv(c, s', ph)
  {
    assert MemberInv(c, s, t);
    if s.members[t].left == 0 {
      match ph {
        case Together(l) =>
          assert ExpectedSet(s') == ExpectedSet(s);
          assert AllLed(s');
        case _ =>
      }
    } else {
      forall u | 0 <= u < SLOTS
        ensures SameClass(s, s', u)
      {
      }
      SameClassSamePhase(c, s, s', ph);
    }
  }

  lemma LeaveKeepsInv(r: Rules, c: Config, s: State, ph: Phase, t: nat, sig: nat)
    requires Inv(c, s, ph) && Moves(r, c, s, t) && s.members[t].pc == Leave
    requires Harmless(r, s, t)
    ensures Inv(c, Step(r, c, s, t, sig), ph)
  {
    var s' := Step(r, c, s, t, sig);
    assert MemberInv(c, s, t);
    LeaveStep(r, c, s, t, sig);
    hide Step;
    LeaveKeepsPhase(c, s, s', ph, t);
    hide PhaseInv;
    forall u | 0 <= u < SLOTS && u != t
      ensures MemberInv(c, s', u) && SleepInv(s', u)
    {
      assert MemberInv(c, s, u) && SleepInv(s, u);
      OtherMember(c, s, s', t, u);
      OtherSleep(s, s', t, u);
    }
  }

  lemma AddStep(r: Rules, c: Config, s: State, t: nat, sig: nat)
    requires Moves(r, c, s, t) && s.members[t].pc == Add && MemberInv(c, s, t)
    ensures var s', m := Step(r, c, s, t, sig), s.members[t];
            && OnlyMoves(s, s', t) && s'.owner == s.owner + 1 && s'.round == s.round && s'.live == s.live
            && s'.members[t] == m.(pc := Spin)
            && MemberInv(c, s', t) && SleepInv(s', t)
  {
    hide Pick;
    hide StartOf;
    hide WakeMembers;
  }

  lemma AddKeepsPhase(c: Config, s: State, s': State, ph: Phase, t: nat)
    requires Inv(c, s, ph) && OnlyMoves(s, s', t) && s.members[t].pc == Add
    requires s'.owner == s.owner + 1 && s'.round == s.round && s'.live == s.live
    requires s'.members[t] == s.members[t].(pc := Spin)
    ensures PhaseInv(c, s', ph) && ph.Together? && s.owner < 0
  {
    hide SleepInv;
    assert MemberInv(c, s, t);
    assert t in ExpectedSet(s);
    assert ExpectedSet(s') == ExpectedSet(s) - {t};
    assert AllLed(s) == AllLed(s') by {
      assert forall u :: 0 <= u < SLOTS ==> HasLed(s, u) == HasLed(s', u);
    }
  }

  lemma AddKeepsInv(r: Rules, c: Config, s: State, ph: Phase, t: nat, sig: nat)
    requires Inv(c, s, ph) && Moves(r, c, s, t) && s.members[t].pc == Add
    ensures Inv(c, Step(r, c, s, t, sig), ph)
  {
    var s' := Step(r, c, s, t, sig);
    assert MemberInv(c, s, t);
    AddStep(r, c, s, t, sig);
    hide Step;
    AddKeepsPhase(c, s, s', ph, t);
    hide PhaseInv;
    forall u | 0 <= u < SLOTS && u != t
      ensures MemberInv(c, s', u) && SleepInv(s', u)
    {
      assert MemberInv(c, s, u) && SleepInv(s, u);
      OtherMember(c, s, s', t, u);
      OtherSleep(s, s', t, u);
    }
  }

  // ----- Publications

  /** What a publication makes of the turn. */
  function NextPhase(s: State): Phase
  {
    if s.owner > 0 then Solo(s.owner) else if s.owner < 0 then Together(FirstFrom(s.live, 0)) else Over
  }

  /** The published owner is a live member, the whole group, or nobody because nobody is left. */
  ghost predicate IsPublished(c: Config, s: State)
  {
    && (s.owner > 0 ==> IsMember(c, s.owner) && s.live[s.owner])
    && (s.owner < 0 ==> s.owner == -|Members(s.live, SLOTS)|)
    && (s.owner <= 0 ==> (s.owner == 0 <==> IsEmpty(s.live)))
  }

  lemma PickAllStep(r: Rules, c: Config, s: State, t: nat, sig: nat)
    requires Moves(r, c, s, t) && s.members[t].pc == PickAll && MemberInv(c, s, t)
    requires WellFormed(s.live, c.begin, c.end)
    ensures var s', m := Step(r, c, s, t, sig), s.members[t];
            && OnlyMoves(s, s', t) && s'.round == s.round && s'.live == s.live && IsPublished(c, s')
            && s'.members[t] == m.(pc := BumpAll) && MemberInv(c, s', t) && SleepInv(s', t)
  {
    PickIsExact(s.live, c.begin, c.end, StartOf(sig, c.begin, c.end));
    hide Pick;
    hide StartOf;
    hide WakeMembers;
  }

  lemma PickAllKeepsPhase(c: Config, s: State, s': State, ph: Phase, t: nat)
    requires Inv(c, s, ph) && OnlyMoves(s, s', t) && s.members[t].pc == PickAll
    requires s'.round == s.round && s'.live == s.live && IsPublished(c, s')
    requires s'.members[t] == s.members[t].(pc := BumpAll)
    ensures PhaseInv(c, s', Publishing(t)) && s.owner == 0
  {
    assert MemberInv(c, s, t);
    assert ph.Together? && s.owner == 0 && HasLed(s, t) && t == ph.l;
    assert ExpectedSet(s) == {};
    forall u | 0 <= u < SLOTS
      ensures !Expected(s, u) && (After(s, s.members[u]) ==> HasLed(s, u))
    {
      assert u !in ExpectedSet(s);
      assert MemberInv(c, s, u);
    }
  }

  lemma PickAllKeepsInv(r: Rules, c: Config, s: State, ph: Phase, t: nat, sig: nat)
    requires Inv(c, s, ph) && Moves(r, c, s, t) && s.members[t].pc == PickAll
    ensures Inv(c, Step(r, c, s, t, sig), Publishing(t))
  {
    var s' := Step(r, c, s, t, sig);
    assert MemberInv(c, s, t);
    PickAllStep(r, c, s, t, sig);
    hide Step;
    PickAllKeepsPhase(c, s, s', ph, t);
    hide PhaseInv;
    forall u | 0 <= u < SLOTS && u != t
      ensures MemberInv(c, s', u) && SleepInv(s', u)
    {
      assert MemberInv(c, s, u) && SleepInv(s, u);
      OtherMember(c, s, s', t, u);
      OtherSleep(s, s', t, u);
    }
  }

  /** The turn that begins when `round` changes and nobody is in a turn any more. */
  lemma TurnBegins(c: Config, s: State)
    requires |s.members| == SLOTS && WellFormed(s.live, c.begin, c.end) && IsPublished(c, s)
    requires forall u :: 0 <= u < SLOTS ==>
               !Inside(s.members[u]) && !After(s, s.members[u]) && !Alone(s.members[u])
    ensures PhaseInv(c, s, NextPhase(s))
  {
    if s.owner < 0 {
      assert ExpectedSet(s) == Members(s.live, SLOTS);
      var k :| 0 <= k < SLOTS && s.live[k];
      assert FirstFrom(s.live, 0) <= k;
    }
  }

  lemma BumpAllStep(r: Rules, c: Config, s: State, t: nat, sig: nat)
    requires Moves(r, c, s, t) && s.members[t].pc == BumpAll && MemberInv(c, s, t)
    ensures var s', m := Step(r, c, s, t, sig), s.members[t];
            && OnlyMoves(s, s', t) && s'.owner == s.owner && s'.round == s.round + 1 && s'.live == s.live
            && s'.members[t] == m.(pc := WakeAll) && MemberInv(c, s', t) && SleepInv(s', t)
  {
    hide Pick;
    hide StartOf;
    hide WakeMembers;
  }

  lemma PickOneStep(r: Rules, c: Config, s: State, t: nat, sig: nat)
    requires Moves(r, c, s, t) && s.members[t].pc == PickOne && MemberInv(c, s, t)
    requires r.atomicPublish
    requires WellFormed(s.live, c.begin, c.end)
    ensures var s', m := Step(r, c, s, t, sig), s.members[t];
            && OnlyMoves(s, s', t) && s'.round == s.round + 1 && s'.live == s.live && IsPublished(c, s')
            && s'.members[t] == m.(pc := WakeOne) && MemberInv(c, s', t) && SleepInv(s', t)
  {
    PickIsExact(s.live, c.begin, c.end, StartOf(sig, c.begin, c.end));
    hide Pick;
    hide StartOf;
    hide WakeMembers;
  }

  /** `round` goes up when no participant of the old turn is left in it but those that wait. */
  lemma BumpKeepsInv(c: Config, s: State, s': State, ph: Phase, t: nat)
    requires Inv(c, s, ph) && OnlyMoves(s, s', t)
    requires s'.round == s.round + 1 && s'.live == s.live && IsPublished(c, s')
    requires MemberInv(c, s', t) && SleepInv(s', t)
    requires || (s.members[t].pc == BumpAll && s'.owner == s.owner && s'.members[t] == s.members[t].(pc := WakeAll))
             || (s.members[t].pc == PickOne && s'.members[t] == s.members[t].(pc := WakeOne))
    ensures Inv(c, s', NextPhase(s'))
  {
    NobodyElse(c, s, ph, t);
    hide PhaseInv;
    forall u | 0 <= u < SLOTS && u != t
      ensures MemberInv(c, s', u) && SleepInv(s', u)
      ensures !Inside(s'.members[u]) && !After(s', s'.members[u]) && !Alone(s'.members[u])
    {
      assert MemberInv(c, s, u) && SleepInv(s, u);
      OtherMember(c, s, s', t, u);
      OtherSleep(s, s', t, u);
    }
    TurnBegins(c, s');
  }

  /** A publisher finds nobody in its turn except members of the group that wait for its end. */
  lemma NobodyElse(c: Config, s: State, ph: Phase, t: nat)
    requires Inv(c, s, ph) && t < SLOTS && s.members[t].pc in {BumpAll, PickOne}
    ensures forall u :: 0 <= u < SLOTS && u != t ==>
              && !Inside(s.members[u]) && !Alone(s.members[u])
              && s.members[u].pc !in {PickAll, BumpAll}
              && (After(s, s.members[u]) ==> !s.members[u].leader)
              && (s.members[t].pc == PickOne ==> !After(s, s.members[u]))
    ensures s.members[t].pc == BumpAll ==> IsPublished(c, s)
  {
    assert MemberInv(c, s, t);
    assert s.members[t].pc == BumpAll ==> After(s, s.members[t]);
    assert s.members[t].pc == PickOne ==> Alone(s.members[t]);
    forall u | 0 <= u < SLOTS && u != t
      ensures && !Inside(s.members[u]) && !Alone(s.members[u])
              && s.members[u].pc !in {PickAll, BumpAll}
              && (After(s, s.members[u]) ==> !s.members[u].leader)
              && (s.members[t].pc == PickOne ==> !After(s, s.members[u]))
    {
      assert MemberInv(c, s, u);
      assert ph.Publishing? ==> !Expected(s, u);
    }
  }

  lemma BumpAllKeepsInv(r: Rules, c: Config, s: State, ph: Phase, t: nat, sig: nat)
    requires Inv(c, s, ph) && Moves(r, c, s, t) && s.members[t].pc == BumpAll
    ensures Inv(c, Step(r, c, s, t, sig), NextPhase(Step(r, c, s, t, sig)))
  {
    assert MemberInv(c, s, t);
    BumpAllStep(r, c, s, t, sig);
    NobodyElse(c, s, ph, t);
    hide Step;
    BumpKeepsInv(c, s, Step(r, c, s, t, sig), ph, t);
  }

  lemma PickOneKeepsInv(r: Rules, c: Config, s: State, ph: Phase, t: nat, sig: nat)
    requires Inv(c, s, ph) && Moves(r, c, s, t) && s.members[t].pc == PickOne
    requires r.atomicPublish
    ensures Inv(c, Step(r, c, s, t, sig), NextPhase(Step(r, c, s, t, sig)))
  {
    assert MemberInv(c, s, t);
    PickOneStep(r, c, s, t, sig);
    hide Step;
    BumpKeepsInv(c, s, Step(r, c, s, t, sig), ph, t);
  }

  function PhaseAfter(s: State, s': State, ph: Phase, t: nat): Phase
    requires t < |s.members|
  {
    match s.members[t].pc
    case PickAll => Publishing(t)
    case BumpAll | PickOne => NextPhase(s')
    case _ => ph
  }

  lemma StepKeepsInv(r: Rules, c: Config, s: State, ph: Phase, t: nat, sig: nat)
    requires Inv(c, s, ph) && Moves(r, c, s, t) && Harmless(r, s, t)
    ensures var s' := Step(r, c, s, t, sig); Inv(c, s', PhaseAfter(s, s', ph, t))
  {
    assert MemberInv(c, s, t);
    hide Step;
    match s.members[t].pc
    case Leave => LeaveKeepsInv(r, c, s, ph, t, sig);
    case Add => AddKeepsInv(r, c, s, ph, t, sig);
    case PickAll => PickAllKeepsInv(r, c, s, ph, t, sig);
    case BumpAll => BumpAllKeepsInv(r, c, s, ph, t, sig);
    case PickOne => PickOneKeepsInv(r, c, s, ph, t, sig);
    case WakeAll | WakeOne => WakeKeepsInv(r, c, s, ph, t, sig);
    case _ => LocalKeepsInv(r, c, s, ph, t, sig);
  }

  /** `s` keeps the invariant in some turn. */
  ghost predicate HasTurn(c: Config, s: State)
  {
    exists ph :: Inv(c, s, ph)
  }

  // ----- Round safety

  /** Past the barrier of the group turn in progress. */
  predicate PastBarrier(s: State, m: Member)
  {
    m.pc in {PickAll, BumpAll} || (m.pc in {WaitRound, AsleepRound} && m.oldRound == s.round)
  }

  predicate Publishes(m: Member) { m.pc in {PickAll, BumpAll, PickOne, BumpOne} }

  /** `t` executes a batch, or is about to. */
  predicate Executes(m: Member) { m.pc in {Lead, Round, Batch} }

  /** In a group turn, until the leader publishes, `owner` counts the participants yet to increment it. */
  ghost predicate OwnerCounts(s: State)
    requires |s.members| == SLOTS
  {
    (exists t :: 0 <= t < SLOTS && (Inside(s.members[t]) || After(s, s.members[t]))) && !IsPublishing(s) ==>
      s.owner == -|ExpectedSet(s)|
  }

  /** Nobody is past the execution barrier while another participant has its batch before it. */
  ghost predicate BarrierHolds(s: State)
    requires |s.members| == SLOTS
  {
    forall t, u :: 0 <= t < SLOTS && 0 <= u < SLOTS && PastBarrier(s, s.members[t]) ==>
      !Expected(s, u) && !Executes(s.members[u])
  }

  /** One member publishes, and it publishes the end of the turn that it took part in. */
  ghost predicate OnePublisher(s: State)
    requires |s.members| == SLOTS
  {
    forall t, u :: 0 <= t < SLOTS && 0 <= u < SLOTS && Publishes(s.members[t]) && Publishes(s.members[u]) ==>
      t == u && s.members[t].oldRound == s.round
  }

  /** While one member has the turn, no other member executes anything. */
  ghost predicate SingleTurnIsExclusive(s: State)
    requires |s.members| == SLOTS
  {
    forall t, u :: 0 <= t < SLOTS && 0 <= u < SLOTS && t != u && Alone(s.members[t]) ==>
      && (s.members[t].pc != BumpOne ==> s.owner == t)
      && !Executes(s.members[u]) && !Inside(s.members[u]) && !After(s, s.members[u])
  }

  ghost predicate RoundSafe(s: State)
  {
    |s.members| == SLOTS && OwnerCounts(s) && BarrierHolds(s) && OnePublisher(s) && SingleTurnIsExclusive(s)
  }

  lemma InvOwnerCounts(c: Config, s: State, ph: Phase)
    requires Inv(c, s, ph)
    ensures OwnerCounts(s)
  {
    if t :| 0 <= t < SLOTS && (Inside(s.members[t]) || After(s, s.members[t])) {
      assert MemberInv(c, s, t);
      assert ph.Publishing? ==> IsPublishing(s);
    }
  }

  lemma InvBarrierHolds(c: Config, s: State, ph: Phase)
    requires Inv(c, s, ph)
    ensures BarrierHolds(s)
  {
    forall t, u | 0 <= t < SLOTS && 0 <= u < SLOTS && PastBarrier(s, s.members[t])
      ensures !Expected(s, u) && !Executes(s.members[u])
    {
      assert MemberInv(c, s, t) && MemberInv(c, s, u);
      assert After(s, s.members[t]);
      if ph.Together? {
        assert ExpectedSet(s) == {};
        assert u !in ExpectedSet(s);
      }
    }
  }

  lemma InvOnePublisher(c: Config, s: State, ph: Phase)
    requires Inv(c, s, ph)
    ensures OnePublisher(s)
  {
    forall t, u | 0 <= t < SLOTS && 0 <= u < SLOTS && Publishes(s.members[t]) && Publishes(s.members[u])
      ensures t == u && s.members[t].oldRound == s.round
    {
      PublisherIsPhase(c, s, ph, t);
      PublisherIsPhase(c, s, ph, u);
      assert MemberInv(c, s, t);
    }
  }

  lemma PublisherIsPhase(c: Config, s: State, ph: Phase, t: nat)
    requires Inv(c, s, ph) && t < SLOTS && Publishes(s.members[t])
    ensures match ph case Solo(o) => t == o case Together(l) => t == l case Publishing(l) => t == l case Over => false
  {
    hide SleepInv;
    var m := s.members[t];
    assert MemberInv(c, s, t);
    assert m.pc in {PickAll, BumpAll} ==> After(s, m) && HasLed(s, t);
    assert m.pc == PickOne ==> Alone(m);
  }

  lemma InvSingleTurn(c: Config, s: State, ph: Phase)
    requires Inv(c, s, ph)
    ensures SingleTurnIsExclusive(s)
  {
    forall t, u | 0 <= t < SLOTS && 0 <= u < SLOTS && t != u && Alone(s.members[t])
      ensures (s.members[t].pc != BumpOne ==> s.owner == t)
      ensures !Executes(s.members[u]) && !Inside(s.members[u]) && !After(s, s.members[u])
    {
      assert MemberInv(c, s, t) && MemberInv(c, s, u);
    }
  }

  lemma InvIsSafe(c: Config, s: State)
    requires HasTurn(c, s)
    ensures RoundSafe(s)
  {
    hide Inv;
    hide OwnerCounts;
    hide BarrierHolds;
    hide OnePublisher;
    hide SingleTurnIsExclusive;
    var ph :| Inv(c, s, ph);
    InvOwnerCounts(c, s, ph);
    InvBarrierHolds(c, s, ph);
    InvOnePublisher(c, s, ph);
    InvSingleTurn(c, s, ph);
    assert |s.members| == SLOTS by { InvSized(c, s, ph); }
  }

  lemma InvSized(c: Config, s: State, ph: Phase)
    requires Inv(c, s, ph)
    ensures |s.members| == SLOTS && WellFormed(s.live, c.begin, c.end)
  {
  }
}
