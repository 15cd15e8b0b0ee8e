/**
 Pieces of runs of racey-futex.c in which all threads are in the first group: one thread at a time
 makes the few steps that belong together, and batches are of a single iteration.
 */
module FutexScript {
  import opened Mixing
  import opened Runs
  import opened Shared
  import opened FutexGroup
  import opened FutexProgram
  import R = FutexRounds
  import SharedLoop
  import FutexTurns

  /** Nobody is in a batch, and only the first group has moved. */
  function Whole(p: Setup, m: seq<nat>, sig: seq<nat>, g: R.State): State
  {
    State(m, sig, Init(p).work, Init(p).groups[0 := g])
  }

  ghost predicate At(r: R.Rules, p: Setup, run: seq<Who>, m: seq<nat>, sig: seq<nat>, g: R.State)
  {
    && Exec(Next(r, p), Init(p), run) == Some(Whole(p, m, sig, g))
    && |m| == p.elems && |sig| == |g.members| == SLOTS
  }

  lemma AtSized(r: R.Rules, p: Setup, run: seq<Who>, m: seq<nat>, sig: seq<nat>, g: R.State)
    requires At(r, p, run, m, sig, g)
    ensures |m| == p.elems && |sig| == |g.members| == SLOTS && Sized(p, Whole(p, m, sig, g))
  {
    InitGroups(p, 0);
  }

  lemma Begin(r: R.Rules, p: Setup)
    ensures At(r, p, [], InitialElements(p.elems), InitialSig(32), R.Init(GroupConfig(p, 0)))
  {
    InitGroups(p, 0);
    hide R.Init;
    assert Init(p).groups[0 := R.Init(GroupConfig(p, 0))] == Init(p).groups;
  }

  lemma StepIsSized(r: R.Rules, c: R.Config, g: R.State, t: nat, sig: nat)
    requires R.Moves(r, c, g, t)
    ensures |R.Step(r, c, g, t, sig).members| == SLOTS && t < SLOTS
  {
    hide Pick;
    hide StartOf;
    hide FirstFrom;
  }

  /** One more step of the protocol. */
  lemma Go(r: R.Rules, p: Setup, run: seq<Who>, m: seq<nat>, sig: seq<nat>, g: R.State, t: nat)
      returns (run': seq<Who>, g': R.State)
    requires At(r, p, run, m, sig, g) && R.Moves(r, GroupConfig(p, 0), g, t) && g.members[t].pc != R.Batch
    ensures t < SLOTS && g' == R.Step(r, GroupConfig(p, 0), g, t, sig[t])
    ensures At(r, p, run', m, SigAfter(sig, g, t), g')
  {
    hide R.Step;
    hide R.Moves;
    hide R.Init;
    hide SigAfter;
    var s, l := Whole(p, m, sig, g), Who(0, t);
    AtSized(r, p, run, m, sig, g);
    MoverIsSlot(r, p, s, l);
    StepIsSized(r, GroupConfig(p, 0), g, t, sig[t]);
    run', g' := run + [l], R.Step(r, GroupConfig(p, 0), g, t, sig[t]);
    ExecAppend(Next(r, p), Init(p), run, [l]);
    ExecOne(Next(r, p), s, l);
    assert s.work[t := NO_WORK] == s.work;
    assert Init(p).groups[0 := g][0 := g'] == Init(p).groups[0 := g'];
  }

  /** A whole batch, of one iteration, which loads elements `i` and `j` and ends with `num`. */
  lemma DoBatch(r: R.Rules, p: Setup, run: seq<Who>, m: seq<nat>, sig: seq<nat>, g: R.State, t: nat,
                i: nat, j: nat, num: nat) returns (run': seq<Who>, g': R.State)
    requires At(r, p, run, m, sig, g) && R.Moves(r, GroupConfig(p, 0), g, t) && p.maxLoop < 100
    requires g.members[t].pc == R.Batch && g.members[t].left > 0
    requires i == sig[t] % p.elems && j == Mix(sig[t], m[i]) % p.elems && num == Mix(Mix(sig[t], m[i]), m[j])
    ensures t < SLOTS && g' == R.Step(r, GroupConfig(p, 0), g, t, num)
    ensures At(r, p, run', m[j := num], sig[t := num], g')
  {
    hide R.Step;
    hide R.Moves;
    hide R.Init;
    hide Mix;
    hide Init;
    var s, l := Whole(p, m, sig, g), Who(0, t);
    AtSized(r, p, run, m, sig, g);
    MoverIsSlot(r, p, s, l);
    InitWork(p, t);
    StepIsSized(r, GroupConfig(p, 0), g, t, num);
    UndisturbedBatch(r, p, s, l);
    assert SharedLoop.Iterate(m, sig[t], 0) == (m, sig[t]);
    run', g' := run + Times(l, 6), R.Step(r, GroupConfig(p, 0), g, t, num);
    ExecAppend(Next(r, p), Init(p), run, Times(l, 6));
    assert Init(p).groups[0 := g][0 := g'] == Init(p).groups[0 := g'];
  }

  lemma InitWork(p: Setup, t: nat)
    requires t < SLOTS
    ensures |Init(p).work| == SLOTS && Init(p).work[t] == NO_WORK && |Init(p).groups| == NFUTEX
  {
  }

  // ----- What a thread does between two points where others may come in

  function Set(g: R.State, t: nat, m: R.Member): R.State
    requires t < |g.members|
  {
    g.(members := g.members[t := m])
  }

  lemma SetTwice(g: R.State, t: nat, a: R.Member, b: R.Member)
    requires t < |g.members|
    ensures Set(Set(g, t, a), t, b) == Set(g, t, b)
  {
    assert g.members[t := a][t := b] == g.members[t := b];
  }

  function Rest(left: nat): nat { if left <= 1 then 0 else left - 1 }

  lemma Look(r: R.Rules, p: Setup, run: seq<Who>, m: seq<nat>, sig: seq<nat>, g: R.State, t: nat)
      returns (run': seq<Who>, g': R.State)
    requires At(r, p, run, m, sig, g) && R.IsMember(GroupConfig(p, 0), t)
    requires g.members[t].pc == R.Top && g.members[t].left > 0 && (g.owner < 0 || g.owner == t)
    ensures At(r, p, run', m, sig, g')
    ensures g' == Set(g, t, R.Member(R.Batch, g.owner, g.owner == t || LeaderOf(g.live) == t, g.round, g.members[t].left))
  {
    hide At;
    hide Pick;
    hide StartOf;
    hide FirstFrom;
    hide R.WakeMembers;
    AtSized(r, p, run, m, sig, g);
    var run1, g1 := Go(r, p, run, m, sig, g, t);
    AtSized(r, p, run1, m, sig, g1);
    var run2, g2 := Go(r, p, run1, m, sig, g1, t);
    AtSized(r, p, run2, m, sig, g2);
    run', g' := Go(r, p, run2, m, sig, g2, t);
    assert g'.members == g.members[t := g'.members[t]];
  }

  /** `t` joins a turn: a batch, and then the decision whether to leave. */
  lemma Join(r: R.Rules, p: Setup, run: seq<Who>, m: seq<nat>, sig: seq<nat>, g: R.State, t: nat,
             i: nat, j: nat, num: nat) returns (run': seq<Who>, g': R.State)
    requires At(r, p, run, m, sig, g) && R.IsMember(GroupConfig(p, 0), t) && p.maxLoop < 100
    requires g.members[t].pc == R.Top && g.members[t].left > 0 && (g.owner < 0 || g.owner == t)
    requires i == sig[t] % p.elems && j == Mix(sig[t], m[i]) % p.elems && num == Mix(Mix(sig[t], m[i]), m[j])
    ensures At(r, p, run', m[j := num], sig[t := num], g')
    ensures g' == Set(g, t, R.Member(R.Leave, g.owner, g.owner == t || LeaderOf(g.live) == t, g.round, Rest(g.members[t].left)))
  {
    hide At;
    hide Mix;
    hide Pick;
    hide StartOf;
    hide FirstFrom;
    hide LeaderOf;
    hide R.WakeMembers;
    AtSized(r, p, run, m, sig, g);
    var run1, g1 := Look(r, p, run, m, sig, g, t);
    run', g' := DoBatch(r, p, run1, m, sig, g1, t, i, j, num);
    SetTwice(g, t, g1.members[t], g'.members[t]);
  }

  /** In a group turn, `t` goes on to the execution barrier. */
  lemma ToBarrier(r: R.Rules, p: Setup, run: seq<Who>, m: seq<nat>, sig: seq<nat>, g: R.State, t: nat)
      returns (run': seq<Who>, g': R.State)
    requires At(r, p, run, m, sig, g) && R.IsMember(GroupConfig(p, 0), t)
    requires g.members[t].pc == R.Leave && g.members[t].owner < 0
    requires r.leaderFirst && g.members[t].left == 0 ==> R.AllLed(g)
    ensures At(r, p, run', m, sig, g')
    ensures g' == Set(g, t, g.members[t].(pc := R.Spin))
                  .(owner := g.owner + 1, live := if g.members[t].left == 0 then g.live[t := false] else g.live)
  {
    hide At;
    hide Pick;
    hide StartOf;
    hide FirstFrom;
    hide R.WakeMembers;
    AtSized(r, p, run, m, sig, g);
    var run1, g1 := Go(r, p, run, m, sig, g, t);
    AtSized(r, p, run1, m, sig, g1);
    run', g' := Go(r, p, run1, m, sig, g1, t);
    assert g'.members == g.members[t := g'.members[t]];
  }

  /** The leader, released from the barrier, publishes its pick. */
  lemma Publish(r: R.Rules, p: Setup, run: seq<Who>, m: seq<nat>, sig: seq<nat>, g: R.State, t: nat)
      returns (run': seq<Who>, g': R.State)
    requires At(r, p, run, m, sig, g) && R.IsMember(GroupConfig(p, 0), t)
    requires g.members[t].pc == R.Spin && g.members[t].leader && g.owner == 0
    ensures At(r, p, run', m, sig, g')
    ensures var c := GroupConfig(p, 0);
            g' == Set(g, t, g.members[t].(pc := R.WakeAll))
                  .(owner := Pick(g.live, StartOf(sig[t], c.begin, c.end), c.end), round := g.round + 1)
  {
    hide At;
    hide Pick;
    hide StartOf;
    hide FirstFrom;
    hide R.WakeMembers;
    AtSized(r, p, run, m, sig, g);
    var run1, g1 := Go(r, p, run, m, sig, g, t);
    AtSized(r, p, run1, m, sig, g1);
    var run2, g2 := Go(r, p, run1, m, sig, g1, t);
    AtSized(r, p, run2, m, sig, g2);
    run', g' := Go(r, p, run2, m, sig, g2, t);
    assert g'.members == g.members[t := g'.members[t]];
  }

  /** A member at the barrier of a turn that is over goes back to the top. */
  lemma Rejoin(r: R.Rules, p: Setup, run: seq<Who>, m: seq<nat>, sig: seq<nat>, g: R.State, t: nat)
      returns (run': seq<Who>, g': R.State)
    requires At(r, p, run, m, sig, g) && R.IsMember(GroupConfig(p, 0), t)
    requires g.members[t].pc == R.Spin && !g.members[t].leader && g.members[t].oldRound != g.round
    ensures At(r, p, run', m, sig, g') && g' == Set(g, t, g.members[t].(pc := R.Top))
  {
    hide At;
    hide Pick;
    hide StartOf;
    hide FirstFrom;
    hide R.WakeMembers;
    AtSized(r, p, run, m, sig, g);
    var run1, g1 := Go(r, p, run, m, sig, g, t);
    AtSized(r, p, run1, m, sig, g1);
    run', g' := Go(r, p, run1, m, sig, g1, t);
    assert g'.members == g.members[t := g'.members[t]];
  }

  /** It is somebody else's turn: `t` goes to sleep. */
  lemma FallAsleep(r: R.Rules, p: Setup, run: seq<Who>, m: seq<nat>, sig: seq<nat>, g: R.State, t: nat)
      returns (run': seq<Who>, g': R.State)
    requires At(r, p, run, m, sig, g) && R.IsMember(GroupConfig(p, 0), t)
    requires g.members[t].pc == R.Top && g.members[t].left > 0 && g.owner >= 0 && g.owner != t
    ensures At(r, p, run', m, sig, g') && g' == Set(g, t, g.members[t].(pc := R.AsleepOwner, owner := g.owner))
  {
    hide At;
    hide Pick;
    hide StartOf;
    hide FirstFrom;
    hide R.WakeMembers;
    AtSized(r, p, run, m, sig, g);
    var run1, g1 := Go(r, p, run, m, sig, g, t);
    AtSized(r, p, run1, m, sig, g1);
    run', g' := Go(r, p, run1, m, sig, g1, t);
    assert g'.members == g.members[t := g'.members[t]];
  }

  /** The member whose turn it was publishes its pick; it has not woken anybody yet. */
  lemma PublishOne(r: R.Rules, p: Setup, run: seq<Who>, m: seq<nat>, sig: seq<nat>, g: R.State, t: nat)
      returns (run': seq<Who>, g': R.State)
    requires At(r, p, run, m, sig, g) && R.IsMember(GroupConfig(p, 0), t)
    requires g.members[t].pc == R.Leave && g.members[t].owner >= 0 && g.members[t].left > 0
    ensures At(r, p, run', m, sig, g')
    ensures var c := GroupConfig(p, 0);
            g' == Set(g, t, g.members[t].(pc := if r.atomicPublish then R.WakeOne else R.BumpOne))
                  .(owner := Pick(g.live, StartOf(sig[t], c.begin, c.end), c.end),
                    round := if r.atomicPublish then g.round + 1 else g.round)
  {
    hide At;
    hide Pick;
    hide StartOf;
    hide FirstFrom;
    hide R.WakeMembers;
    AtSized(r, p, run, m, sig, g);
    var run1, g1 := Go(r, p, run, m, sig, g, t);
    AtSized(r, p, run1, m, sig, g1);
    run', g' := Go(r, p, run1, m, sig, g1, t);
    assert g'.members == g.members[t := g'.members[t]];
  }

  /** The single steps of a script that are not part of anything longer. */
  lemma SmallStep(r: R.Rules, p: Setup, run: seq<Who>, m: seq<nat>, sig: seq<nat>, g: R.State, t: nat)
      returns (run': seq<Who>, g': R.State)
    requires At(r, p, run, m, sig, g) && R.IsMember(GroupConfig(p, 0), t)
    requires var w := g.members[t];
             || w.pc == R.BumpOne || (w.pc == R.Top && w.left == 0)
             || (w.pc == R.Spin && w.leader && w.oldRound != g.round)
    ensures At(r, p, run', m, sig, g')
    ensures var w := g.members[t];
            g' == match w.pc
                  case BumpOne => Set(g, t, w.(pc := R.WakeOne)).(round := g.round + 1)
                  case Top => Set(g, t, w.(pc := R.Returned))
                  case _ => Set(g, t, w.(pc := R.PickAll))
  {
    hide At;
    hide Pick;
    hide StartOf;
    hide FirstFrom;
    hide R.WakeMembers;
    AtSized(r, p, run, m, sig, g);
    run', g' := Go(r, p, run, m, sig, g, t);
  }

  /** From the barrier to sleep on `round`. */
  lemma Doze(r: R.Rules, p: Setup, run: seq<Who>, m: seq<nat>, sig: seq<nat>, g: R.State, t: nat)
      returns (run': seq<Who>, g': R.State)
    requires At(r, p, run, m, sig, g) && R.IsMember(GroupConfig(p, 0), t)
    requires g.members[t].pc == R.Spin && !g.members[t].leader && g.members[t].oldRound == g.round && g.owner == 0
    ensures At(r, p, run', m, sig, g') && g' == Set(g, t, g.members[t].(pc := R.AsleepRound))
  {
    hide At;
    hide Pick;
    hide StartOf;
    hide FirstFrom;
    hide R.WakeMembers;
    AtSized(r, p, run, m, sig, g);
    var run1, g1 := Go(r, p, run, m, sig, g, t);
    AtSized(r, p, run1, m, sig, g1);
    run', g' := Go(r, p, run1, m, sig, g1, t);
    assert g'.members == g.members[t := g'.members[t]];
  }

  /** `t` wakes those in `who`, who wait on `owner` and count their return, or on `round` and do not. */
  lemma Wake(r: R.Rules, p: Setup, run: seq<Who>, m: seq<nat>, sig: seq<nat>, g: R.State, t: nat,
             who: set<nat>, sig': seq<nat>) returns (run': seq<Who>, g': R.State)
    requires At(r, p, run, m, sig, g) && R.IsMember(GroupConfig(p, 0), t) && g.members[t].pc in {R.WakeOne, R.WakeAll}
    requires var pc := if g.members[t].pc == R.WakeOne then R.AsleepOwner else R.AsleepRound;
             forall u: nat :: u < SLOTS ==> (u in who <==> g.members[u].pc == pc)
    requires g.members[t].pc == R.WakeAll && who != {} ==> !r.exactWakes
    requires |sig'| == SLOTS
    requires forall u: nat :: u < SLOTS ==>
               sig'[u] == if u in who && g.members[t].pc == R.WakeOne then U32(sig[u] + 1) else sig[u]
    ensures At(r, p, run', m, sig', g')
    ensures |g'.members| == SLOTS && g' == g.(members := g'.members)
    ensures forall u: nat :: u < SLOTS ==>
              g'.members[u] == if u == t || u in who then g.members[u].(pc := R.Top) else g.members[u]
  {
    hide At;
    hide Pick;
    hide StartOf;
    hide FirstFrom;
    hide U32;
    AtSized(r, p, run, m, sig, g);
    run', g' := Go(r, p, run, m, sig, g, t);
    assert SigAfter(sig, g, t) == sig';
  }

  // ----- Groups as a script shows them

  const NOBODY := R.Member(R.Returned, 0, false, 0, 0)

  /** The members from `first` on are live; the first three threads are in these states, and there are no others. */
  ghost predicate Shows(p: Setup, g: R.State, first: nat, owner: int, round: nat, m1: R.Member, m2: R.Member, m3: R.Member)
  {
    && |g.members| == SLOTS && FutexTurns.LiveFrom(GroupConfig(p, 0), g.live, first)
    && g.owner == owner && g.round == round
    && g.members[1] == m1 && g.members[2] == m2 && g.members[3] == m3
    && forall u :: 0 <= u < SLOTS && !(1 <= u <= 3) ==> g.members[u] == NOBODY
  }

  /** Who leads, and what a pick means, when the members from `first` on are live. */
  lemma Picks(p: Setup, live: Slots, first: nat, sig: nat, k: nat)
    requires var c := GroupConfig(p, 0);
             && FutexTurns.LiveFrom(c, live, first) && first <= k <= c.end && first < c.end
             && sig % (c.end - c.begin + 1) == k - c.begin
    ensures var c := GroupConfig(p, 0);
            && LeaderOf(live) == first
            && Pick(live, StartOf(sig, c.begin, c.end), c.end) == if k == c.end then -(c.end - first) else k
  {
    var c := GroupConfig(p, 0);
    FutexTurns.LiveLeader(c, live, first);
    FutexTurns.PickLive(c, live, first, k);
    FutexTurns.StartAt(c, k);
    assert StartOf(sig, c.begin, c.end) == k;
    hide Pick;
  }
}
