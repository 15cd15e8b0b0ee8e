/**
 A run of racey-futex.c with two threads and MaxLoop 4, in which line 184 takes effect before line
 185: a thread that polls in between passes the execution barrier alone.

 MEM_k and SIG_k are m[] and sig[] after k changes.  For each batch, the lemma Numbers computes with
 mix, and the lemma Loads says which elements are loaded and what is stored.
 */
module FutexEarlyOwner {
  import opened Mixing
  import opened Runs
  import opened Shared
  import opened FutexGroup
  import opened FutexProgram
  import opened FutexScript
  import R = FutexRounds
  import FutexSafety
  import FutexTurns

  const TWO: Setup := Setup(2, 4, 64)
  const EARLY_OWNER := R.ALL_RULES.(atomicPublish := false)

  const MEM_0: seq<nat> := InitialElements(64)
  const SIG_0: seq<nat> := InitialSig(32)
  const MEM_1: seq<nat> := MEM_0[8 := 7393633]
  const SIG_1: seq<nat> := SIG_0[1 := 7393633]
  const MEM_2: seq<nat> := MEM_1[8 := 27215495]
  const SIG_2: seq<nat> := SIG_1[2 := 27215495]
  const MEM_3: seq<nat> := MEM_2[33 := 78033795]
  const SIG_3: seq<nat> := SIG_2[2 := 78033795]
  const SIG_4: seq<nat> := SIG_3[1 := 7393634]
  const MEM_4: seq<nat> := MEM_3[3 := 67393531]
  const SIG_5: seq<nat> := SIG_4[1 := 67393531]
  const MEM_5: seq<nat> := MEM_4[13 := 34134146]
  const SIG_6: seq<nat> := SIG_5[2 := 34134146]
  const MEM_6: seq<nat> := MEM_5[13 := 69881433]
  const SIG_7: seq<nat> := SIG_6[1 := 69881433]

  lemma Start() returns (run: seq<Who>, g: R.State)
    ensures At(EARLY_OWNER, TWO, run, MEM_0, SIG_0, g)
    ensures Shows(TWO, g, 1, -2, 0, R.Member(R.Top, 0, false, 0, 4), R.Member(R.Top, 0, false, 0, 4),
                  NOBODY)
  {
    hide At;
    hide Mix;
    run, g := [], R.Init(GroupConfig(TWO, 0));
    Begin(EARLY_OWNER, TWO);
  }

  lemma Numbers1()
    ensures Mix(1, 1) == 923165 && Mix(8, 8) == 7385320 && Mix(1, 923165) == 100302216
         && Mix(100302216, 7385320) == 7393633
  {
    hide Mix;
    MixIs(1, 1, 0, 1, 923165);
    MixIs(8, 8, 0, 8, 7385320);
    MixIs(1, 923165, 22352, 36, 100302216);
    MixIs(100302216, 7385320, 178823, 5, 7393633);
  }

  lemma Loads1()
    ensures SIG_0[1] % 64 == 1 && Mix(SIG_0[1], MEM_0[1]) % 64 == 8
    ensures Mix(Mix(SIG_0[1], MEM_0[1]), MEM_0[8]) == 7393633
  {
    hide Mix;
    Numbers1();
  }

  lemma Numbers2()
    ensures Mix(2, 2) == 1846330 && Mix(2, 1846330) == 28526856 && Mix(28526856, 7393633) == 27215495
  {
    hide Mix;
    MixIs(2, 2, 0, 2, 1846330);
    MixIs(2, 1846330, 44705, 32, 28526856);
    MixIs(28526856, 7393633, 179024, 16, 27215495);
  }

  lemma Loads2()
    ensures SIG_1[2] % 64 == 2 && Mix(SIG_1[2], MEM_1[2]) % 64 == 8
    ensures Mix(Mix(SIG_1[2], MEM_1[2]), MEM_1[8]) == 27215495
  {
    hide Mix;
    Numbers2();
  }

  /** Both threads have executed their first batch. */
  lemma BothAtBarrier() returns (run: seq<Who>, g: R.State)
    ensures At(EARLY_OWNER, TWO, run, MEM_2, SIG_2, g)
    ensures Shows(TWO, g, 1, 0, 0,
                  R.Member(R.Spin, -2, true, 0, 3),
                  R.Member(R.Spin, -1, false, 0, 3),
                  NOBODY)
  {
    hide At;
    hide Mix;
    hide Pick;
    hide StartOf;
    hide LeaderOf;
    hide R.Init;
    run, g := Start();
    Loads1();
    FutexTurns.LiveLeader(GroupConfig(TWO, 0), g.live, 1);
    run, g := Join(EARLY_OWNER, TWO, run, MEM_0, SIG_0, g, 1, 1, 8, 7393633);
    run, g := ToBarrier(EARLY_OWNER, TWO, run, MEM_1, SIG_1, g, 1);
    Loads2();
    FutexTurns.LiveLeader(GroupConfig(TWO, 0), g.live, 1);
    run, g := Join(EARLY_OWNER, TWO, run, MEM_1, SIG_1, g, 2, 2, 8, 27215495);
    run, g := ToBarrier(EARLY_OWNER, TWO, run, MEM_2, SIG_2, g, 2);
  }

  /** Thread 1 has given the turn to thread 2 and sleeps. */
  lemma SecondIsNext() returns (run: seq<Who>, g: R.State)
    ensures At(EARLY_OWNER, TWO, run, MEM_2, SIG_2, g)
    ensures Shows(TWO, g, 1, 2, 1,
                  R.Member(R.AsleepOwner, 2, true, 0, 3),
                  R.Member(R.Top, -1, false, 0, 3),
                  NOBODY)
  {
    hide At;
    hide Mix;
    hide Pick;
    hide StartOf;
    hide LeaderOf;
    hide R.Init;
    run, g := BothAtBarrier();
    Picks(TWO, g.live, 1, SIG_2[1], 2);
    run, g := Publish(EARLY_OWNER, TWO, run, MEM_2, SIG_2, g, 1);
    run, g := Wake(EARLY_OWNER, TWO, run, MEM_2, SIG_2, g, 1, {}, SIG_2);
    run, g := FallAsleep(EARLY_OWNER, TWO, run, MEM_2, SIG_2, g, 1);
    run, g := Rejoin(EARLY_OWNER, TWO, run, MEM_2, SIG_2, g, 2);
  }

  lemma Numbers3()
    ensures Mix(7, 7) == 6462155 && Mix(33, 33) == 30464445 && Mix(27215495, 6462155) == 6082273
         && Mix(6082273, 30464445) == 78033795
  {
    hide Mix;
    MixIs(7, 7, 0, 7, 6462155);
    MixIs(33, 33, 0, 33, 30464445);
    MixIs(27215495, 6462155, 156470, 9, 6082273);
    MixIs(6082273, 30464445, 737645, 11, 78033795);
  }

  lemma Loads3()
    ensures SIG_2[2] % 64 == 7 && Mix(SIG_2[2], MEM_2[7]) % 64 == 33
    ensures Mix(Mix(SIG_2[2], MEM_2[7]), MEM_2[33]) == 78033795
  {
    hide Mix;
    Numbers3();
  }

  /** Thread 2 has given the turn back and woken thread 1, which counts its return. */
  lemma FirstIsNext() returns (run: seq<Who>, g: R.State)
    ensures At(EARLY_OWNER, TWO, run, MEM_3, SIG_4, g)
    ensures Shows(TWO, g, 1, 1, 2,
                  R.Member(R.Top, 2, true, 0, 3),
                  R.Member(R.Top, 2, true, 1, 2),
                  NOBODY)
  {
    hide At;
    hide Mix;
    hide Pick;
    hide StartOf;
    hide LeaderOf;
    hide R.Init;
    run, g := SecondIsNext();
    Loads3();
    run, g := Join(EARLY_OWNER, TWO, run, MEM_2, SIG_2, g, 2, 7, 33, 78033795);
    Picks(TWO, g.live, 1, SIG_3[2], 1);
    run, g := PublishOne(EARLY_OWNER, TWO, run, MEM_3, SIG_3, g, 2);
    run, g := SmallStep(EARLY_OWNER, TWO, run, MEM_3, SIG_3, g, 2);
    run, g := Wake(EARLY_OWNER, TWO, run, MEM_3, SIG_3, g, 2, {1}, SIG_4);
  }

  lemma Numbers4()
    ensures Mix(34, 34) == 31387610 && Mix(3, 3) == 2769495 && Mix(7393634, 31387610) == 7569795
         && Mix(7569795, 2769495) == 67393531
  {
    hide Mix;
    MixIs(34, 34, 0, 34, 31387610);
    MixIs(3, 3, 0, 3, 2769495);
    MixIs(7393634, 31387610, 759998, 7, 7569795);
    MixIs(7569795, 2769495, 67058, 27, 67393531);
  }

  lemma Loads4()
    ensures SIG_4[1] % 64 == 34 && Mix(SIG_4[1], MEM_3[34]) % 64 == 3
    ensures Mix(Mix(SIG_4[1], MEM_3[34]), MEM_3[3]) == 67393531
  {
    hide Mix;
    Numbers4();
  }

  /** Thread 1 has given the turn to thread 2 again. */
  lemma SecondAgain() returns (run: seq<Who>, g: R.State)
    ensures At(EARLY_OWNER, TWO, run, MEM_4, SIG_5, g)
    ensures Shows(TWO, g, 1, 2, 3,
                  R.Member(R.Top, 1, true, 2, 2),
                  R.Member(R.Top, 2, true, 1, 2),
                  NOBODY)
  {
    hide At;
    hide Mix;
    hide Pick;
    hide StartOf;
    hide LeaderOf;
    hide R.Init;
    run, g := FirstIsNext();
    Loads4();
    run, g := Join(EARLY_OWNER, TWO, run, MEM_3, SIG_4, g, 1, 34, 3, 67393531);
    Picks(TWO, g.live, 1, SIG_5[1], 2);
    run, g := PublishOne(EARLY_OWNER, TWO, run, MEM_4, SIG_5, g, 1);
    run, g := SmallStep(EARLY_OWNER, TWO, run, MEM_4, SIG_5, g, 1);
    run, g := Wake(EARLY_OWNER, TWO, run, MEM_4, SIG_5, g, 1, {}, SIG_5);
  }

  lemma Numbers5()
    ensures Mix(13, 13) == 12001145 && Mix(78033795, 67393531) == 4625229 && Mix(4625229, 12001145) == 34134146
  {
    hide Mix;
    MixIs(13, 13, 0, 13, 12001145);
    MixIs(78033795, 67393531, 1631820, 41, 4625229);
    MixIs(4625229, 12001145, 290587, 22, 34134146);
  }

  lemma Loads5()
    ensures SIG_5[2] % 64 == 3 && Mix(SIG_5[2], MEM_4[3]) % 64 == 13
    ensures Mix(Mix(SIG_5[2], MEM_4[3]), MEM_4[13]) == 34134146
  {
    hide Mix;
    Numbers5();
  }

  /** Thread 2 has published the group as the next owner, but not yet the round. */
  lemma HalfPublished() returns (run: seq<Who>, g: R.State)
    ensures At(EARLY_OWNER, TWO, run, MEM_5, SIG_6, g)
    ensures Shows(TWO, g, 1, -2, 3,
                  R.Member(R.Top, 1, true, 2, 2),
                  R.Member(R.BumpOne, 2, true, 3, 1),
                  NOBODY)
  {
    hide At;
    hide Mix;
    hide Pick;
    hide StartOf;
    hide LeaderOf;
    hide R.Init;
    run, g := SecondAgain();
    Loads5();
    run, g := Join(EARLY_OWNER, TWO, run, MEM_4, SIG_5, g, 2, 3, 13, 34134146);
    Picks(TWO, g.live, 1, SIG_6[2], 3);
    run, g := PublishOne(EARLY_OWNER, TWO, run, MEM_5, SIG_6, g, 2);
  }

  lemma Numbers6()
    ensures Mix(59, 59) == 88533645 && Mix(67393531, 88533645) == 50903245 && Mix(50903245, 34134146) == 69881433
  {
    hide Mix;
    MixIs(59, 59, 1, 17, 88533645);
    MixIs(67393531, 88533645, 2143693, 11, 50903245);
    MixIs(50903245, 34134146, 826500, 38, 69881433);
  }

  lemma Loads6()
    ensures SIG_6[1] % 64 == 59 && Mix(SIG_6[1], MEM_5[59]) % 64 == 13
    ensures Mix(Mix(SIG_6[1], MEM_5[59]), MEM_5[13]) == 69881433
  {
    hide Mix;
    Numbers6();
  }

  /** Thread 1 has read the new owner together with the old round. */
  lemma PolledTooEarly() returns (run: seq<Who>, g: R.State)
    ensures At(EARLY_OWNER, TWO, run, MEM_6, SIG_7, g)
    ensures Shows(TWO, g, 1, -1, 3,
                  R.Member(R.Spin, -2, true, 3, 1),
                  R.Member(R.BumpOne, 2, true, 3, 1),
                  NOBODY)
  {
    hide At;
    hide Mix;
    hide Pick;
    hide StartOf;
    hide LeaderOf;
    hide R.Init;
    run, g := HalfPublished();
    Loads6();
    FutexTurns.LiveLeader(GroupConfig(TWO, 0), g.live, 1);
    run, g := Join(EARLY_OWNER, TWO, run, MEM_5, SIG_6, g, 1, 59, 13, 69881433);
    run, g := ToBarrier(EARLY_OWNER, TWO, run, MEM_6, SIG_7, g, 1);
  }

  /** The round changes, and thread 1 passes the barrier alone. */
  lemma PastBarrierAlone() returns (run: seq<Who>, g: R.State)
    ensures At(EARLY_OWNER, TWO, run, MEM_6, SIG_7, g)
    ensures Shows(TWO, g, 1, -1, 4,
                  R.Member(R.PickAll, -2, true, 3, 1),
                  R.Member(R.WakeOne, 2, true, 3, 1),
                  NOBODY)
  {
    hide At;
    hide Mix;
    hide Pick;
    hide StartOf;
    hide LeaderOf;
    hide R.Init;
    run, g := PolledTooEarly();
    run, g := SmallStep(EARLY_OWNER, TWO, run, MEM_6, SIG_7, g, 2);
    run, g := SmallStep(EARLY_OWNER, TWO, run, MEM_6, SIG_7, g, 1);
  }

  /** If `owner` is published before `round` changes, the execution barrier does not hold. */
  lemma AtomicPublishIsNeeded() returns (run: seq<Who>, s: State)
    ensures Exec(Next(R.ALL_RULES.(atomicPublish := false), TWO), Init(TWO), run) == Some(s) && Sized(TWO, s)
    ensures !FutexSafety.BarrierHolds(s.groups[0])
    ensures s.groups[0].members[1].pc == R.PickAll && R.Expected(s.groups[0], 2) && s.groups[0].members[2].left > 0
  {
    var g;
    run, g := PastBarrierAlone();
    s := Whole(TWO, MEM_6, SIG_7, g);
    AtSized(EARLY_OWNER, TWO, run, MEM_6, SIG_7, g);
    InitGroups(TWO, 0);
    hide Init;
    assert s.groups[0] == g;
  }
}
