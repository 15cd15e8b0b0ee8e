/**
 Whole turns of a group of racey-futex.c as runs, for groups of every size: the members take
 their parts one after the other, and whoever publishes picks what the caller says.
 */
module FutexTurns {
  import opened Runs
  import opened FutexGroup
  import opened FutexRounds
  import opened FutexSafety
  import Shared

  ghost predicate Reached(r: Rules, c: Config, run: seq<Move>, s: State)
  {
    Exec(Next(r, c), Init(c), run) == Some(s) && |s.members| == SLOTS
  }

  /** One more step at the end of a run. */
  lemma Go(r: Rules, c: Config, run: seq<Move>, s: State, t: nat, sig: nat) returns (run': seq<Move>, s': State)
    requires Reached(r, c, run, s) && Moves(r, c, s, t)
    ensures Reached(r, c, run', s') && s' == Step(r, c, s, t, sig)
  {
    run', s' := run + [Move(t, sig)], Step(r, c, s, t, sig);
    ExecAppend(Next(r, c), Init(c), run, [Move(t, sig)]);
    ExecOne(Next(r, c), s, Move(t, sig));
  }

  function PerTurn(c: Config): nat { Shared.BatchSize(c.maxLoop) }

  function Rest(c: Config, left: nat): nat { if left <= PerTurn(c) then 0 else left - PerTurn(c) }

  // ----- One member

  /** `t` joins a turn: a batch, and then the decision whether to leave. */
  lemma JoinTurn(r: Rules, c: Config, run: seq<Move>, s: State, t: nat) returns (run': seq<Move>, s': State)
    requires Reached(r, c, run, s) && IsMember(c, t) && s.members[t].pc == Top && s.members[t].left > 0
    requires s.owner < 0 || s.owner == t
    ensures Reached(r, c, run', s')
    ensures var m := Member(Leave, s.owner, s.owner == t || LeaderOf(s.live) == t, s.round, Rest(c, s.members[t].left));
            s' == s.(members := s.members[t := m])
  {
    hide Reached;
    hide Pick;
    hide StartOf;
    hide WakeMembers;
    hide FirstFrom;
    assert |s.members| == SLOTS by { ReachedSized(r, c, run, s); }
    var run1, s1 := JoinLead(r, c, run, s, t);
    ReachedSized(r, c, run1, s1);
    var run2, s2 := Go(r, c, run1, s1, t, 0);
    ReachedSized(r, c, run2, s2);
    run', s' := Go(r, c, run2, s2, t, 0);
    assert s'.members == s.members[t := s'.members[t]];
  }

  lemma JoinLead(r: Rules, c: Config, run: seq<Move>, s: State, t: nat) returns (run': seq<Move>, s': State)
    requires Reached(r, c, run, s) && IsMember(c, t) && s.members[t].pc == Top && s.members[t].left > 0
    requires s.owner < 0 || s.owner == t
    ensures Reached(r, c, run', s')
    ensures var m := s.members[t].(pc := Round, owner := s.owner, leader := s.owner == t || LeaderOf(s.live) == t);
            s' == s.(members := s.members[t := m])
  {
    hide Reached;
    hide Pick;
    hide StartOf;
    hide WakeMembers;
    hide FirstFrom;
    ReachedSized(r, c, run, s);
    var run1, s1 := Go(r, c, run, s, t, 0);
    ReachedSized(r, c, run1, s1);
    run', s' := Go(r, c, run1, s1, t, 0);
    assert s'.members == s.members[t := s'.members[t]];
  }

  lemma ReachedSized(r: Rules, c: Config, run: seq<Move>, s: State)
    requires Reached(r, c, run, s)
    ensures |s.members| == SLOTS
  {
  }

  /** In a group turn, `t` goes on to the execution barrier. */
  lemma GoToBarrier(r: Rules, c: Config, run: seq<Move>, s: State, t: nat) returns (run': seq<Move>, s': State)
    requires Reached(r, c, run, s) && IsMember(c, t) && s.members[t].pc == Leave && s.members[t].owner < 0
    requires r.leaderFirst && s.members[t].left == 0 ==> AllLed(s)
    ensures Reached(r, c, run', s')
    ensures s' == s.(owner := s.owner + 1, members := s.members[t := s.members[t].(pc := Spin)],
                     live := if s.members[t].left == 0 then s.live[t := false] else s.live)
  {
    hide Reached;
    hide Pick;
    hide StartOf;
    hide WakeMembers;
    hide FirstFrom;
    ReachedSized(r, c, run, s);
    var run1, s1 := Go(r, c, run, s, t, 0);
    ReachedSized(r, c, run1, s1);
    run', s' := Go(r, c, run1, s1, t, 0);
    assert s'.members == s.members[t := s'.members[t]];
  }

  /** The leader publishes `next`. */
  lemma Publish(r: Rules, c: Config, run: seq<Move>, s: State, t: nat, sig: nat, next: int)
      returns (run': seq<Move>, s': State)
    requires Reached(r, c, run, s) && IsMember(c, t) && s.members[t].pc == Spin && s.members[t].leader && s.owner == 0
    requires next == Pick(s.live, StartOf(sig, c.begin, c.end), c.end)
    ensures Reached(r, c, run', s')
    ensures s' == s.(owner := next, round := s.round + 1, members := s.members[t := s.members[t].(pc := WakeAll)])
  {
    hide Reached;
    hide Pick;
    hide StartOf;
    hide WakeMembers;
    hide FirstFrom;
    ReachedSized(r, c, run, s);
    var run1, s1 := Go(r, c, run, s, t, 0);
    ReachedSized(r, c, run1, s1);
    var run2, s2 := Go(r, c, run1, s1, t, sig);
    ReachedSized(r, c, run2, s2);
    run', s' := Go(r, c, run2, s2, t, 0);
    assert s'.members == s.members[t := s'.members[t]];
  }

  /** A member at the barrier of a turn that is over goes back to the top. */
  lemma Rejoin(r: Rules, c: Config, run: seq<Move>, s: State, t: nat) returns (run': seq<Move>, s': State)
    requires Reached(r, c, run, s) && IsMember(c, t) && s.members[t].pc == Spin && !s.members[t].leader
    requires s.members[t].oldRound != s.round
    ensures Reached(r, c, run', s') && s' == s.(members := s.members[t := s.members[t].(pc := Top)])
  {
    hide Reached;
    hide Pick;
    hide StartOf;
    hide WakeMembers;
    hide FirstFrom;
    ReachedSized(r, c, run, s);
    var run1, s1 := Go(r, c, run, s, t, 0);
    ReachedSized(r, c, run1, s1);
    run', s' := Go(r, c, run1, s1, t, 0);
    assert s'.members == s.members[t := s'.members[t]];
  }

  /** It is somebody else's turn: `t` goes to sleep. */
  lemma FallAsleep(r: Rules, c: Config, run: seq<Move>, s: State, t: nat) returns (run': seq<Move>, s': State)
    requires Reached(r, c, run, s) && IsMember(c, t) && s.members[t].pc == Top && s.members[t].left > 0
    requires s.owner >= 0 && s.owner != t
    ensures Reached(r, c, run', s')
    ensures s' == s.(members := s.members[t := s.members[t].(pc := AsleepOwner, owner := s.owner)])
  {
    hide Reached;
    hide Pick;
    hide StartOf;
    hide WakeMembers;
    hide FirstFrom;
    ReachedSized(r, c, run, s);
    var run1, s1 := Go(r, c, run, s, t, 0);
    ReachedSized(r, c, run1, s1);
    run', s' := Go(r, c, run1, s1, t, 0);
    assert s'.members == s.members[t := s'.members[t]];
  }

  /** The wake after a publication, when nobody sleeps. */
  lemma WakeNobody(r: Rules, c: Config, run: seq<Move>, s: State, t: nat) returns (run': seq<Move>, s': State)
    requires Reached(r, c, run, s) && IsMember(c, t) && s.members[t].pc in {WakeAll, WakeOne}
    requires forall u :: 0 <= u < SLOTS ==>
               s.members[u].pc != if s.members[t].pc == WakeAll then AsleepRound else AsleepOwner
    ensures Reached(r, c, run', s') && s' == s.(members := s.members[t := s.members[t].(pc := Top)])
  {
    hide Reached;
    hide Pick;
    hide StartOf;
    hide FirstFrom;
    ReachedSized(r, c, run, s);
    run', s' := Go(r, c, run, s, t, 0);
    assert s'.members == s.members[t := s.members[t].(pc := Top)];
  }

  /** In a turn of its own, `t` comes to the point where it publishes. */
  lemma SingleTurn(r: Rules, c: Config, run: seq<Move>, s: State, t: nat) returns (run': seq<Move>, s': State)
    requires Reached(r, c, run, s) && IsMember(c, t) && s.members[t].pc == Top && s.members[t].left > 0
    requires s.owner == t
    ensures Reached(r, c, run', s')
    ensures var left := Rest(c, s.members[t].left);
            s' == s.(members := s.members[t := Member(PickOne, t, true, s.round, left)],
                     live := if left == 0 then s.live[t := false] else s.live)
  {
    hide Reached;
    hide Pick;
    hide StartOf;
    hide WakeMembers;
    hide FirstFrom;
    hide Rest;
    ReachedSized(r, c, run, s);
    var run1, s1 := JoinTurn(r, c, run, s, t);
    ReachedSized(r, c, run1, s1);
    run', s' := Go(r, c, run1, s1, t, 0);
    assert s'.members == s.members[t := s'.members[t]];
  }

  // ----- The members from `from` on, one after the other

  /** `u` has come to the barrier of the present round, whose leader is `l`. */
  predicate AtBarrier(s: State, u: nat, l: nat, left: nat)
    requires u < |s.members|
  {
    var m := s.members[u];
    m.pc == Spin && m.owner < 0 && m.oldRound == s.round && m.leader == (u == l) && m.left == left
  }

  predicate AtTop(s: State, u: nat, left: nat)
    requires u < |s.members|
  {
    s.members[u].pc == Top && s.members[u].left == left
  }

  lemma {:induction false} BatchPass(r: Rules, c: Config, run: seq<Move>, s: State, from: nat, l: nat, before: nat, left: nat)
      returns (run': seq<Move>, s': State)
    requires Reached(r, c, run, s) && c.begin <= from <= c.end && s.owner <= -(c.end - from)
    requires forall u :: from <= u < c.end ==> AtTop(s, u, before)
    requires left > 0 && before == left + PerTurn(c) && l == LeaderOf(s.live)
    ensures Reached(r, c, run', s') && |s'.members| == SLOTS
    ensures s'.owner == s.owner + (c.end - from) && s'.round == s.round && s'.live == s.live
    ensures forall u :: 0 <= u < SLOTS && !(from <= u < c.end) ==> s'.members[u] == s.members[u]
    ensures forall u :: from <= u < c.end ==> AtBarrier(s', u, l, left)
    decreases c.end - from
  {
    hide Reached;
    hide LeaderOf;
    hide PerTurn;
    ReachedSized(r, c, run, s);
    if from == c.end {
      run', s' := run, s;
    } else {
      assert AtTop(s, from, before);
      var run1, s1 := JoinTurn(r, c, run, s, from);
      var run2, s2 := GoToBarrier(r, c, run1, s1, from);
      forall u | from < u < c.end
        ensures AtTop(s2, u, before)
      {
        assert AtTop(s, u, before);
      }
      run', s' := BatchPass(r, c, run2, s2, from + 1, l, before, left);
      assert s'.members[from] == s2.members[from];
    }
  }

  lemma {:induction false} RejoinPass(r: Rules, c: Config, run: seq<Move>, s: State, from: nat, left: nat)
      returns (run': seq<Move>, s': State)
    requires Reached(r, c, run, s) && c.begin <= from <= c.end
    requires forall u :: from <= u < c.end ==>
               s.members[u].pc == Spin && !s.members[u].leader && s.members[u].oldRound != s.round && s.members[u].left == left
    ensures Reached(r, c, run', s') && |s'.members| == SLOTS && s' == s.(members := s'.members)
    ensures forall u :: 0 <= u < SLOTS && !(from <= u < c.end) ==> s'.members[u] == s.members[u]
    ensures forall u :: from <= u < c.end ==> AtTop(s', u, left)
    decreases c.end - from
  {
    hide Reached;
    ReachedSized(r, c, run, s);
    if from == c.end {
      run', s' := run, s;
    } else {
      var run1, s1 := Rejoin(r, c, run, s, from);
      run', s' := RejoinPass(r, c, run1, s1, from + 1, left);
      assert s'.members[from] == s1.members[from];
    }
  }

  lemma {:induction false} SleepPass(r: Rules, c: Config, run: seq<Move>, s: State, from: nat, left: nat)
      returns (run': seq<Move>, s': State)
    requires Reached(r, c, run, s) && c.begin <= from <= c.end && left > 0 && 0 <= s.owner < from
    requires forall u :: from <= u < c.end ==> AtTop(s, u, left)
    ensures Reached(r, c, run', s') && |s'.members| == SLOTS && s' == s.(members := s'.members)
    ensures forall u :: 0 <= u < SLOTS && !(from <= u < c.end) ==> s'.members[u] == s.members[u]
    ensures forall u :: from <= u < c.end ==> s'.members[u].pc == AsleepOwner
    decreases c.end - from
  {
    hide Reached;
    ReachedSized(r, c, run, s);
    if from == c.end {
      run', s' := run, s;
    } else {
      assert AtTop(s, from, left);
      var run1, s1 := FallAsleep(r, c, run, s, from);
      assert forall u :: from < u < c.end ==> s1.members[u] == s.members[u] && AtTop(s, u, left);
      run', s' := SleepPass(r, c, run1, s1, from + 1, left);
      assert s'.members[from] == s1.members[from];
    }
  }

  // ----- Picks

  /** The members from `first` on are live. */
  predicate LiveFrom(c: Config, live: Slots, first: nat)
  {
    c.begin <= first <= c.end && forall k :: 0 <= k < SLOTS ==> live[k] == (first <= k < c.end)
  }

  lemma StartAt(c: Config, k: nat)
    requires c.begin <= k <= c.end
    ensures StartOf(k - c.begin, c.begin, c.end) == k
  {
  }

  lemma LiveLeader(c: Config, live: Slots, first: nat)
    requires LiveFrom(c, live, first) && first < c.end
    ensures LeaderOf(live) == first && WellFormed(live, c.begin, c.end) && !IsEmpty(live)
    ensures |Members(live, SLOTS)| == c.end - first
  {
    assert live[first];
    RangeSize(live, first, c.end, SLOTS);
    assert FirstFrom(live, 0) <= first;
  }

  /** A first pick past the range schedules the group; one in the range that is live schedules that member. */
  lemma PickLive(c: Config, live: Slots, first: nat, k: nat)
    requires LiveFrom(c, live, first) && first < c.end && first <= k <= c.end
    ensures Pick(live, StartOf(k - c.begin, c.begin, c.end), c.end) == if k == c.end then -(c.end - first) else k
  {
    hide Pick;
    hide StartOf;
    hide LeaderOf;
    hide Members;
    StartAt(c, k);
    LiveLeader(c, live, first);
    PickIsExact(live, c.begin, c.end, k);
    if k < c.end {
      assert live[k];
    }
  }

  /** Everybody from `first` on is at the top with `left` iterations to go, and nobody sleeps. */
  predicate Assembled(c: Config, s: State, first: nat, left: nat)
    requires |s.members| == SLOTS
  {
    && LiveFrom(c, s.live, first) && forall u :: first <= u < c.end ==> AtTop(s, u, left)
  }

  predicate NobodySleeps(s: State)
    requires |s.members| == SLOTS
  {
    forall u :: 0 <= u < SLOTS ==> s.members[u].pc !in {AsleepRound, AsleepOwner}
  }

  /** What a group turn leaves behind whose leader `first` has published and not yet woken anybody. */
  ghost predicate TurnOver(c: Config, s: State, s': State, first: nat, left: nat, owner: int)
  {
    && |s.members| == |s'.members| == SLOTS && first < c.end
    && s'.owner == owner && s'.round == s.round + 1 && s'.live == s.live
    && (forall u :: 0 <= u < SLOTS && !(first <= u < c.end) ==> s'.members[u] == s.members[u])
    && s'.members[first].pc == WakeAll && s'.members[first].left == left
    && (forall u :: first < u < c.end ==> AtTop(s', u, left))
  }

  lemma PublishedTurn(r: Rules, c: Config, run: seq<Move>, s: State, first: nat, left: nat, k: nat)
      returns (run': seq<Move>, s': State)
    requires Reached(r, c, run, s) && |s.members| == SLOTS && Assembled(c, s, first, left + PerTurn(c))
    requires left > 0 && first < c.end && first <= k <= c.end && s.owner == -(c.end - first)
    ensures Reached(r, c, run', s')
    ensures TurnOver(c, s, s', first, left, if k == c.end then -(c.end - first) else k)
  {
    hide Reached;
    hide PerTurn;
    hide Pick;
    hide StartOf;
    hide LeaderOf;
    PickLive(c, s.live, first, k);
    LiveLeader(c, s.live, first);
    var run1, s1 := BatchPass(r, c, run, s, first, first, left + PerTurn(c), left);
    assert AtBarrier(s1, first, first, left);
    var run2, s2 := Publish(r, c, run1, s1, first, k - c.begin, if k == c.end then -(c.end - first) else k);
    forall u | first < u < c.end
      ensures s2.members[u] == s1.members[u] && AtBarrier(s1, u, first, left)
    {
    }
    run', s' := RejoinPass(r, c, run2, s2, first + 1, left);
    assert s'.members[first] == s2.members[first];
  }

  /** A turn of the whole group, after which its leader has published `k`, or the group again. */
  lemma GroupTurn(r: Rules, c: Config, run: seq<Move>, s: State, first: nat, left: nat, k: nat)
      returns (run': seq<Move>, s': State)
    requires Reached(r, c, run, s) && |s.members| == SLOTS && Assembled(c, s, first, left + PerTurn(c)) && NobodySleeps(s)
    requires left > 0 && first < c.end && first <= k <= c.end && s.owner == -(c.end - first)
    ensures Reached(r, c, run', s') && |s'.members| == SLOTS
    ensures Assembled(c, s', first, left) && NobodySleeps(s') && s'.round == s.round + 1 && s'.live == s.live
    ensures s'.owner == if k == c.end then -(c.end - first) else k
    ensures forall u :: 0 <= u < SLOTS && !(first <= u < c.end) ==> s'.members[u] == s.members[u]
  {
    hide Reached;
    hide PerTurn;
    var run1, s1 := PublishedTurn(r, c, run, s, first, left, k);
    forall u | 0 <= u < SLOTS
      ensures s1.members[u].pc !in {AsleepRound, AsleepOwner}
    {
      assert first < u < c.end ==> AtTop(s1, u, left);
    }
    run', s' := WakeNobody(r, c, run1, s1, first);
    forall u | first <= u < c.end
      ensures AtTop(s', u, left)
    {
      assert u == first || AtTop(s1, u, left);
    }
  }

  lemma InitAssembled(r: Rules, c: Config)
    ensures Reached(r, c, [], Init(c)) && Assembled(c, Init(c), c.begin, c.maxLoop) && NobodySleeps(Init(c))
    ensures Init(c).owner == -(c.end - c.begin)
  {
  }

  lemma BatchIsSmall(c: Config)
    ensures 1 <= PerTurn(c) <= c.maxLoop
    ensures c.maxLoop >= 2 ==> PerTurn(c) < c.maxLoop
    ensures c.maxLoop >= 4 ==> 3 * PerTurn(c) < c.maxLoop
  {
  }
}
