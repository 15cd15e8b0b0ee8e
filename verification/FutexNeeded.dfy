/**
 What goes wrong in a group of racey-futex.c when the rules do not suffice.  The picks are free
 here; the data that they come from is in FutexProgram.
 */
module FutexNeeded {
  import opened Runs
  import opened FutexGroup
  import opened FutexRounds
  import opened FutexSafety
  import opened FutexProgress
  import opened FutexConditions
  import opened FutexTurns

  /** Group turn after group turn, until each member has its last batch before it. */
  lemma {:induction false} ToLastTurn(r: Rules, c: Config, run: seq<Move>, s: State, left: nat)
      returns (run': seq<Move>, s': State, last: nat)
    requires Reached(r, c, run, s) && |s.members| == SLOTS && Assembled(c, s, c.begin, left) && NobodySleeps(s)
    requires left > 0 && c.begin < c.end && s.owner == -(c.end - c.begin)
    ensures Reached(r, c, run', s') && |s'.members| == SLOTS && Assembled(c, s', c.begin, last) && NobodySleeps(s')
    ensures 0 < last <= PerTurn(c) && s'.owner == -(c.end - c.begin)
    ensures left <= PerTurn(c) ==> s' == s
    decreases left
  {
    hide Reached;
    hide Assembled;
    hide NobodySleeps;
    if left <= PerTurn(c) {
      run', s', last := run, s, left;
    } else {
      var run1, s1 := GroupTurn(r, c, run, s, c.begin, left - PerTurn(c), c.end);
      run', s', last := ToLastTurn(r, c, run1, s1, left - PerTurn(c));
    }
  }

  // ----- Without leaderFirst

  /** `t` has its last batch, leaves, and comes to the barrier. */
  lemma LastBatch(r: Rules, c: Config, run: seq<Move>, s: State, t: nat) returns (run': seq<Move>, s': State)
    requires Reached(r, c, run, s) && IsMember(c, t) && s.members[t].pc == Top && 0 < s.members[t].left <= PerTurn(c)
    requires s.owner < 0 && !r.leaderFirst
    ensures Reached(r, c, run', s')
    ensures var m := Member(Spin, s.owner, LeaderOf(s.live) == t, s.round, 0);
            s' == s.(owner := s.owner + 1, live := s.live[t := false], members := s.members[t := m])
  {
    hide Reached;
    hide LeaderOf;
    hide PerTurn;
    ReachedSized(r, c, run, s);
    var run1, s1 := JoinTurn(r, c, run, s, t);
    run', s' := GoToBarrier(r, c, run1, s1, t);
    assert s'.members == s.members[t := s'.members[t]];
  }

  lemma {:induction false} LastPass(r: Rules, c: Config, run: seq<Move>, s: State, from: nat, last: nat)
      returns (run': seq<Move>, s': State)
    requires Reached(r, c, run, s) && |s.members| == SLOTS && c.begin <= from <= c.end && s.owner == -(c.end - from)
    requires !r.leaderFirst && 0 < last <= PerTurn(c) && forall u :: from <= u < c.end ==> AtTop(s, u, last)
    ensures Reached(r, c, run', s') && |s'.members| == SLOTS && s'.owner == 0 && s'.round == s.round
    ensures forall u :: 0 <= u < SLOTS && !(from <= u < c.end) ==> s'.members[u] == s.members[u]
    ensures forall u :: from <= u < c.end ==> s'.members[u].pc == Spin
    decreases c.end - from
  {
    hide Reached;
    hide PerTurn;
    hide LeaderOf;
    if from == c.end {
      run', s' := run, s;
    } else {
      assert AtTop(s, from, last);
      var run1, s1 := LastBatch(r, c, run, s, from);
      forall u | from < u < c.end
        ensures AtTop(s1, u, last)
      {
        assert AtTop(s, u, last);
      }
      run', s' := LastPass(r, c, run1, s1, from + 1, last);
    }
  }

  /** The first member leaves before the second has looked for the leader. */
  lemma BothLead(r: Rules, c: Config, run: seq<Move>, s: State, last: nat) returns (run': seq<Move>, s': State)
    requires Reached(r, c, run, s) && |s.members| == SLOTS && Assembled(c, s, c.begin, last)
    requires !r.leaderFirst && 0 < last <= PerTurn(c) && Size(c) >= 2 && s.owner == -(c.end - c.begin)
    ensures Reached(r, c, run', s') && |s'.members| == SLOTS && s'.owner == 0
    ensures s'.members[c.begin].pc == Spin && s'.members[c.begin].leader
    ensures s'.members[c.begin + 1].pc == Spin && s'.members[c.begin + 1].leader
    ensures s'.round == s.round && forall u :: 0 <= u < SLOTS ==> s'.members[u] == s.members[u] || s'.members[u].pc == Spin
  {
    hide Reached;
    hide PerTurn;
    hide LeaderOf;
    var t, u := c.begin, c.begin + 1;
    assert AtTop(s, t, last) && AtTop(s, u, last);
    LiveLeader(c, s.live, t);
    var run1, s1 := LastBatch(r, c, run, s, t);
    LiveLeader(c, s1.live, u);
    var run2, s2 := LastBatch(r, c, run1, s1, u);
    forall v | u < v < c.end
      ensures AtTop(s2, v, last)
    {
      assert AtTop(s, v, last);
    }
    run', s' := LastPass(r, c, run2, s2, u + 1, last);
    assert s'.members[t] == s2.members[t] == s1.members[t] && s'.members[u] == s2.members[u];
  }

  /** Somebody has published, or is about to finish doing so. */
  predicate HasPicked(s: State)
  {
    s.round > 0 || exists u :: 0 <= u < |s.members| && s.members[u].pc in {BumpAll, BumpOne}
  }

  /** Two leaders of one turn are about to publish at once. */
  lemma TwoLeaders(r: Rules, c: Config) returns (run: seq<Move>, s: State)
    requires !r.leaderFirst && Size(c) >= 2
    ensures Exec(Next(r, c), Init(c), run) == Some(s) && |s.members| == SLOTS
    ensures s.members[c.begin].pc == PickAll && s.members[c.begin + 1].pc == PickAll
    ensures c.maxLoop == 1 ==> !HasPicked(s)
  {
    InitAssembled(r, c);
    BatchIsSmall(c);
    hide PerTurn;
    hide LeaderOf;
    hide Pick;
    hide StartOf;
    hide WakeMembers;
    var last;
    run, s, last := ToLastTurn(r, c, [], Init(c), c.maxLoop);
    run, s := BothLead(r, c, run, s, last);
    run, s := Go(r, c, run, s, c.begin, 0);
    run, s := Go(r, c, run, s, c.begin + 1, 0);
  }

  // ----- Without atomicPublish

  /** The first member, whom the second has made the owner, does not wait for the round to change. */
  lemma TwoPublishers(r: Rules, c: Config) returns (run: seq<Move>, s: State)
    requires !r.atomicPublish && Size(c) >= 2 && c.maxLoop >= 2
    ensures Exec(Next(r, c), Init(c), run) == Some(s) && |s.members| == SLOTS
    ensures s.members[c.begin + 1].pc == BumpOne && s.members[c.begin].pc == PickOne
  {
    var t, u, left := c.begin, c.begin + 1, c.maxLoop - PerTurn(c);
    BatchIsSmall(c);
    InitAssembled(r, c);
    run, s := GroupTurn(r, c, [], Init(c), t, left, u);
    run, s := HalfPublished(r, c, run, s, t, u, left);
    hide Reached;
    hide Init;
    run, s := SingleTurn(r, c, run, s, t);
    ReachedSized(r, c, run, s);
    assert Exec(Next(r, c), Init(c), run) == Some(s) by { ReachedExec(r, c, run, s); }
  }

  lemma ReachedExec(r: Rules, c: Config, run: seq<Move>, s: State)
    requires Reached(r, c, run, s)
    ensures Exec(Next(r, c), Init(c), run) == Some(s)
  {
  }

  lemma HalfPublished(r: Rules, c: Config, run: seq<Move>, s: State, t: nat, u: nat, left: nat)
      returns (run': seq<Move>, s': State)
    requires Reached(r, c, run, s) && |s.members| == SLOTS && Assembled(c, s, t, left) && left > 0
    requires t == c.begin && u == t + 1 && u < c.end && s.owner == u && !r.atomicPublish
    ensures Reached(r, c, run', s') && |s'.members| == SLOTS && s'.owner == t
    ensures s'.members[u].pc == BumpOne && AtTop(s', t, left)
  {
    hide Reached;
    hide Rest;
    hide WakeMembers;
    hide FirstFrom;
    assert AtTop(s, t, left) && AtTop(s, u, left);
    var run1, s1 := SingleTurn(r, c, run, s, u);
    ReachedSized(r, c, run1, s1);
    PickFirst(c, s1.live);
    hide Pick;
    hide StartOf;
    run', s' := Go(r, c, run1, s1, u, 0);
  }

  lemma PickFirst(c: Config, live: Slots)
    requires c.begin < c.end && WellFormed(live, c.begin, c.end) && live[c.begin]
    ensures Pick(live, StartOf(0, c.begin, c.end), c.end) == c.begin
  {
    assert StartOf(0, c.begin, c.end) == c.begin;
    PickIsExact(live, c.begin, c.end, c.begin);
    hide Pick;
    hide StartOf;
  }

  // ----- Without exactWakes

  /** `t`, the first member, uses up its turns until its last batch is to come, then the group is next. */
  lemma {:induction false} RunAhead(r: Rules, c: Config, run: seq<Move>, s: State, t: nat, ahead: nat, left: nat)
      returns (run': seq<Move>, s': State)
    requires Reached(r, c, run, s) && |s.members| == SLOTS && t == c.begin < c.end && r.atomicPublish
    requires LiveFrom(c, s.live, t) && s.owner == t && AtTop(s, t, ahead) && ahead > PerTurn(c) && NobodySleeps(s)
    requires forall u :: t < u < c.end ==> AtTop(s, u, left)
    ensures Reached(r, c, run', s') && |s'.members| == SLOTS && LiveFrom(c, s'.live, t) && NobodySleeps(s')
    ensures s'.owner == -(c.end - t) && s'.members[t].pc == Top && 0 < s'.members[t].left <= PerTurn(c)
    ensures forall u :: t < u < c.end ==> AtTop(s', u, left)
    decreases ahead
  {
    hide Reached;
    hide LiveFrom;
    hide PerTurn;
    BatchIsSmall(c);
    var rest := ahead - PerTurn(c);
    var done := rest <= PerTurn(c);
    var run1, s1 := OneAhead(r, c, run, s, t, rest, if done then c.end else t);
    forall u | t < u < c.end
      ensures AtTop(s1, u, left)
    {
      assert AtTop(s, u, left);
    }
    if done {
      run', s' := run1, s1;
    } else {
      run', s' := RunAhead(r, c, run1, s1, t, rest, left);
    }
  }

  /** A turn of `t` alone, after which it has published `k`, or the group. */
  lemma OneAhead(r: Rules, c: Config, run: seq<Move>, s: State, t: nat, rest: nat, k: nat)
      returns (run': seq<Move>, s': State)
    requires Reached(r, c, run, s) && |s.members| == SLOTS && t == c.begin < c.end && r.atomicPublish
    requires LiveFrom(c, s.live, t) && s.owner == t && AtTop(s, t, rest + PerTurn(c)) && rest > 0 && NobodySleeps(s)
    requires t <= k <= c.end
    ensures Reached(r, c, run', s') && |s'.members| == SLOTS && s'.live == s.live && NobodySleeps(s')
    ensures s'.owner == (if k == c.end then -(c.end - t) else k) && AtTop(s', t, rest)
    ensures forall u :: 0 <= u < SLOTS && u != t ==> s'.members[u] == s.members[u]
  {
    hide Reached;
    hide WakeMembers;
    hide FirstFrom;
    PickLive(c, s.live, t, k);
    hide Pick;
    hide StartOf;
    var run1, s1 := SingleTurn(r, c, run, s, t);
    hide PerTurn;
    ReachedSized(r, c, run1, s1);
    var run2, s2 := Go(r, c, run1, s1, t, k - c.begin);
    assert s2.members == s.members[t := s2.members[t]];
    run', s' := WakeNobody(r, c, run2, s2, t);
  }

  /** The first member finishes as the leader of a group turn, and is late with its wake. */
  lemma LeaderFinishes(r: Rules, c: Config, run: seq<Move>, s: State, t: nat, before: nat, left: nat)
      returns (run': seq<Move>, s': State)
    requires Reached(r, c, run, s) && |s.members| == SLOTS && t == c.begin && Size(c) >= 3 && NobodySleeps(s)
    requires LiveFrom(c, s.live, t) && s.owner == -(c.end - t)
    requires s.members[t].pc == Top && 0 < s.members[t].left <= PerTurn(c) && left > 0 && before == left + PerTurn(c)
    requires forall u :: t < u < c.end ==> AtTop(s, u, before)
    ensures Reached(r, c, run', s') && |s'.members| == SLOTS && NobodySleeps(s') && Assembled(c, s', t + 1, left)
    ensures s'.owner == -(c.end - t - 1) && s'.members[t].pc == WakeAll && s'.members[t].left == 0
  {
    hide Reached;
    hide PerTurn;
    hide Pick;
    hide StartOf;
    hide LeaderOf;
    LiveLeader(c, s.live, t);
    var run1, s1 := BatchPass(r, c, run, s, t + 1, t, before, left);
    var run2, s2 := LeaderLeaves(r, c, run1, s1, t, left);
    PickLive(c, s2.live, t + 1, c.end);
    var run3, s3 := Publish(r, c, run2, s2, t, c.end - c.begin, -(c.end - t - 1));
    forall u | t < u < c.end
      ensures s3.members[u] == s1.members[u] && AtBarrier(s1, u, t, left)
    {
    }
    run', s' := RejoinPass(r, c, run3, s3, t + 1, left);
    assert s'.members[t] == s3.members[t];
    forall u | 0 <= u < SLOTS
      ensures s'.members[u].pc !in {AsleepRound, AsleepOwner}
    {
      assert t < u < c.end ==> AtTop(s', u, left);
    }
  }

  lemma LeaderLeaves(r: Rules, c: Config, run: seq<Move>, s: State, t: nat, left: nat)
      returns (run': seq<Move>, s': State)
    requires Reached(r, c, run, s) && |s.members| == SLOTS && t == c.begin < c.end
    requires LiveFrom(c, s.live, t) && s.owner == -1 && s.members[t].pc == Top && 0 < s.members[t].left <= PerTurn(c)
    requires forall u :: t < u < c.end ==> AtBarrier(s, u, t, left)
    ensures Reached(r, c, run', s') && |s'.members| == SLOTS && LiveFrom(c, s'.live, t + 1)
    ensures s' == s.(owner := 0, live := s'.live, members := s.members[t := Member(Spin, -1, true, s.round, 0)])
  {
    hide Reached;
    hide PerTurn;
    hide LeaderOf;
    LiveLeader(c, s.live, t);
    var run1, s1 := JoinTurn(r, c, run, s, t);
    forall u | 0 <= u < SLOTS && s1.live[u]
      ensures HasLed(s1, u)
    {
      assert u == t || AtBarrier(s, u, t, left);
    }
    run', s' := GoToBarrier(r, c, run1, s1, t);
    assert s'.members == s.members[t := Member(Spin, -1, true, s.round, 0)];
  }

  /** The late wake sends `v` from `round` to `owner`. */
  lemma WokenTooEarly(r: Rules, c: Config, run: seq<Move>, s: State, t: nat, v: nat)
      returns (run': seq<Move>, s': State)
    requires Reached(r, c, run, s) && |s.members| == SLOTS && !r.exactWakes && IsMember(c, t) && IsMember(c, v) && t != v
    requires NobodySleeps(s) && s.owner == 0 && s.members[t].pc == WakeAll && s.members[t].left == 0
    requires s.members[v].pc == Spin && s.members[v].oldRound == s.round && !s.members[v].leader && s.members[v].left > 0
    ensures Reached(r, c, run', s') && |s'.members| == SLOTS
    ensures s' == s.(members := s.members[t := s.members[t].(pc := Returned)][v := s.members[v].(pc := AsleepOwner, owner := 0)])
  {
    hide Reached;
    hide Pick;
    hide StartOf;
    hide FirstFrom;
    hide WakeMembers;
    var run1, s1 := Go(r, c, run, s, v, 0);
    ReachedSized(r, c, run1, s1);
    var run2, s2 := Go(r, c, run1, s1, v, 0);
    ReachedSized(r, c, run2, s2);
    assert s2.members == s.members[v := s.members[v].(pc := AsleepRound)];
    var run3, s3 := WakeOneSleeper(r, c, run2, s2, t, v);
    ReachedSized(r, c, run3, s3);
    var run4, s4 := Go(r, c, run3, s3, t, 0);
    run', s' := FallAsleep(r, c, run4, s4, v);
    ReachedSized(r, c, run', s');
    assert s'.members == s.members[t := s.members[t].(pc := Returned)][v := s.members[v].(pc := AsleepOwner, owner := 0)];
  }

  lemma WakeOneSleeper(r: Rules, c: Config, run: seq<Move>, s: State, t: nat, v: nat)
      returns (run': seq<Move>, s': State)
    requires Reached(r, c, run, s) && |s.members| == SLOTS && !r.exactWakes && IsMember(c, t) && IsMember(c, v) && t != v
    requires s.members[t].pc == WakeAll && s.members[v].pc == AsleepRound
    requires forall u :: 0 <= u < SLOTS && u != v ==> s.members[u].pc != AsleepRound
    ensures Reached(r, c, run', s')
    ensures s' == s.(members := s.members[v := s.members[v].(pc := Top)][t := s.members[t].(pc := Top)])
  {
    hide Reached;
    hide Pick;
    hide StartOf;
    hide FirstFrom;
    run', s' := Go(r, c, run, s, t, 0);
    assert s'.members == s.members[v := s.members[v].(pc := Top)][t := s.members[t].(pc := Top)];
  }

  /** The leader `a` gives the next turn to `v`, which nobody wakes. */
  lemma GiveToSleeper(r: Rules, c: Config, run: seq<Move>, s: State, a: nat, v: nat, left: nat)
      returns (run': seq<Move>, s': State)
    requires Reached(r, c, run, s) && |s.members| == SLOTS && s.owner == 0 && left > 0
    requires LiveFrom(c, s.live, a) && a < v < c.end && AtBarrier(s, a, a, left) && s.members[v].pc == AsleepOwner
    requires forall u :: 0 <= u < SLOTS ==> s.members[u].pc != AsleepRound
    ensures Reached(r, c, run', s') && |s'.members| == SLOTS
    ensures s' == s.(owner := v, round := s.round + 1, members := s.members[a := s.members[a].(pc := AsleepOwner, owner := v)])
  {
    hide Reached;
    hide Pick;
    hide StartOf;
    hide FirstFrom;
    PickLive(c, s.live, a, v);
    var run1, s1 := Publish(r, c, run, s, a, v - c.begin, v);
    var run2, s2 := WakeNobody(r, c, run1, s1, a);
    run', s' := FallAsleep(r, c, run2, s2, a);
    ReachedSized(r, c, run', s');
    assert s'.members == s.members[a := s.members[a].(pc := AsleepOwner, owner := v)];
  }

  lemma {:induction false} LastSleep(r: Rules, c: Config, run: seq<Move>, s: State, from: nat, left: nat)
      returns (run': seq<Move>, s': State)
    requires Reached(r, c, run, s) && |s.members| == SLOTS && c.begin <= from <= c.end && left > 0 && 0 <= s.owner < from
    requires forall u :: from <= u < c.end ==>
               s.members[u].pc == Spin && !s.members[u].leader && s.members[u].oldRound != s.round && s.members[u].left == left
    ensures Reached(r, c, run', s') && |s'.members| == SLOTS && s'.owner == s.owner
    ensures forall u :: 0 <= u < from ==> s'.members[u] == s.members[u]
    ensures forall u :: from <= u < c.end ==> s'.members[u].pc == AsleepOwner
  {
    hide Reached;
    var run1, s1 := RejoinPass(r, c, run, s, from, left);
    run', s' := SleepPass(r, c, run1, s1, from, left);
  }

  /** The group is before the group turn in which the late wake does its harm. */
  lemma BeforeLateWake(r: Rules, c: Config, left: nat) returns (run: seq<Move>, s: State)
    requires r.atomicPublish && Size(c) >= 3 && c.maxLoop >= 4 && left == c.maxLoop - 3 * PerTurn(c)
    ensures Reached(r, c, run, s) && |s.members| == SLOTS && NobodySleeps(s) && left > 0
    ensures Assembled(c, s, c.begin + 1, left + PerTurn(c)) && s.owner == -(c.end - c.begin - 1)
    ensures s.members[c.begin].pc == WakeAll && s.members[c.begin].left == 0
  {
    BatchIsSmall(c);
    InitAssembled(r, c);
    hide Reached;
    hide Init;
    hide PerTurn;
    hide NobodySleeps;
    var t, once := c.begin, c.maxLoop - PerTurn(c);
    run, s := GroupTurn(r, c, [], Init(c), t, once, t);
    assert AtTop(s, t, once);
    run, s := RunAhead(r, c, run, s, t, once, once);
    run, s := LeaderFinishes(r, c, run, s, t, once, once - PerTurn(c));
  }

  /** The sleeper has been woken too early and is asleep on `owner`, which is 0; the others are at the barrier. */
  lemma AfterLateWake(r: Rules, c: Config, left: nat) returns (run: seq<Move>, s: State)
    requires r.atomicPublish && !r.exactWakes && Size(c) >= 3 && c.maxLoop >= 4 && left == c.maxLoop - 3 * PerTurn(c)
    ensures Reached(r, c, run, s) && |s.members| == SLOTS && left > 0 && s.owner == 0
    ensures var t, a, v := c.begin, c.begin + 1, c.begin + 2;
            && LiveFrom(c, s.live, a) && s.members[t].pc == Returned && AtBarrier(s, a, a, left)
            && s.members[v].pc == AsleepOwner
            && (forall u :: v < u < c.end ==> AtBarrier(s, u, a, left))
            && (forall u :: 0 <= u < SLOTS ==> s.members[u].pc != AsleepRound)
  {
    hide Reached;
    hide Init;
    hide PerTurn;
    hide LeaderOf;
    var t, a, v := c.begin, c.begin + 1, c.begin + 2;
    run, s := BeforeLateWake(r, c, left);
    LiveLeader(c, s.live, a);
    ghost var before := s;
    run, s := BatchPass(r, c, run, s, a, a, left + PerTurn(c), left);
    assert AtBarrier(s, a, a, left) && AtBarrier(s, v, a, left);
    ghost var mid := s;
    forall u | 0 <= u < SLOTS
      ensures mid.members[u].pc !in {AsleepRound, AsleepOwner}
    {
      assert a <= u < c.end ==> AtBarrier(mid, u, a, left);
    }
    run, s := WokenTooEarly(r, c, run, s, t, v);
    forall u | v < u < c.end
      ensures AtBarrier(s, u, a, left)
    {
      assert AtBarrier(mid, u, a, left);
    }
  }

  /** A deadlock: everybody who has not finished sleeps, and the owner with them. */
  lemma Deadlock(r: Rules, c: Config) returns (run: seq<Move>, s: State)
    requires r.atomicPublish && !r.exactWakes && Size(c) >= 3 && c.maxLoop >= 4
    ensures Exec(Next(r, c), Init(c), run) == Some(s) && Stuck(r, c, s) && |s.members| == SLOTS
    ensures s.owner == c.begin + 2 && s.members[c.begin + 2].pc == AsleepOwner
  {
    hide Reached;
    hide Init;
    hide Exec;
    BatchIsSmall(c);
    var left := c.maxLoop - 3 * PerTurn(c);
    hide PerTurn;
    var t, a, v := c.begin, c.begin + 1, c.begin + 2;
    run, s := AfterLateWake(r, c, left);
    ghost var s0 := s;
    run, s := GiveToSleeper(r, c, run, s, a, v, left);
    forall u | v < u < c.end
      ensures s.members[u] == s0.members[u] && AtBarrier(s0, u, a, left)
    {
    }
    run, s := LastSleep(r, c, run, s, v + 1, left);
    ReachedExec(r, c, run, s);
    forall u
      ensures !Moves(r, c, s, u)
    {
    }
  }
}
