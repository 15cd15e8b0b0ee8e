/**
 A run of racey-futex.c with three threads and MaxLoop 6 that ends in a deadlock: a leader that has
 finished is so late with the wake of line 177 that the others are already in a later group turn.

 MEM_k and SIG_k are m[] and sig[] after k changes.  For each batch, the lemma Numbers computes with
 mix, and the lemma Loads says which elements are loaded and what is stored.
 */
module FutexLateWake {
  import opened Mixing
  import opened Runs
  import opened Shared
  import opened FutexGroup
  import opened FutexProgram
  import opened FutexScript
  import R = FutexRounds
  import FutexTurns

  const THREE: Setup := Setup(3, 6, 64)
  const LATE_WAKES := R.ALL_RULES.(exactWakes := false)

  const MEM_0: seq<nat> := InitialElements(64)
  const SIG_0: seq<nat> := InitialSig(32)
  const MEM_1: seq<nat> := MEM_0[8 := 38690516]
  const SIG_1: seq<nat> := SIG_0[2 := 38690516]
  const MEM_2: seq<nat> := MEM_1[8 := 23375252]
  const SIG_2: seq<nat> := SIG_1[1 := 23375252]
  const MEM_3: seq<nat> := MEM_2[59 := 43333453]
  const SIG_3: seq<nat> := SIG_2[3 := 43333453]
  const MEM_4: seq<nat> := MEM_3[35 := 63223990]
  const SIG_4: seq<nat> := SIG_3[1 := 63223990]
  const MEM_5: seq<nat> := MEM_4[2 := 101369224]
  const SIG_5: seq<nat> := SIG_4[3 := 101369224]
  const SIG_6: seq<nat> := SIG_5[1 := 63223991]
  const MEM_6: seq<nat> := MEM_5[52 := 29261356]
  const SIG_7: seq<nat> := SIG_6[1 := 29261356]
  const MEM_7: seq<nat> := MEM_6[45 := 84455213]
  const SIG_8: seq<nat> := SIG_7[1 := 84455213]
  const MEM_8: seq<nat> := MEM_7[35 := 23929400]
  const SIG_9: seq<nat> := SIG_8[2 := 23929400]
  const MEM_9: seq<nat> := MEM_8[49 := 8458963]
  const SIG_10: seq<nat> := SIG_9[1 := 8458963]
  const MEM_10: seq<nat> := MEM_9[39 := 36142129]
  const SIG_11: seq<nat> := SIG_10[2 := 36142129]
  const MEM_11: seq<nat> := MEM_10[17 := 13362984]
  const SIG_12: seq<nat> := SIG_11[3 := 13362984]
  const MEM_12: seq<nat> := MEM_11[35 := 58394758]
  const SIG_13: seq<nat> := SIG_12[1 := 58394758]
  const MEM_13: seq<nat> := MEM_12[36 := 92884299]
  const SIG_14: seq<nat> := SIG_13[3 := 92884299]
  const MEM_14: seq<nat> := MEM_13[57 := 82852250]
  const SIG_15: seq<nat> := SIG_14[2 := 82852250]
  const MEM_15: seq<nat> := MEM_14[28 := 78338807]
  const SIG_16: seq<nat> := SIG_15[3 := 78338807]

  lemma Start() returns (run: seq<Who>, g: R.State)
    ensures At(LATE_WAKES, THREE, run, MEM_0, SIG_0, g)
    ensures Shows(THREE, g, 1, -3, 0, R.Member(R.Top, 0, false, 0, 6), R.Member(R.Top, 0, false, 0, 6),
                  R.Member(R.Top, 0, false, 0, 6))
  {
    hide At;
    hide Mix;
    run, g := [], R.Init(GroupConfig(THREE, 0));
    Begin(LATE_WAKES, THREE);
  }

  lemma Numbers1()
    ensures Mix(2, 2) == 1846330 && Mix(8, 8) == 7385320 && Mix(2, 1846330) == 28526856
         && Mix(28526856, 7385320) == 38690516
  {
    hide Mix;
    MixIs(2, 2, 0, 2, 1846330);
    MixIs(8, 8, 0, 8, 7385320);
    MixIs(2, 1846330, 44705, 32, 28526856);
    MixIs(28526856, 7385320, 178823, 4, 38690516);
  }

  lemma Loads1()
    ensures SIG_0[2] % 64 == 2 && Mix(SIG_0[2], MEM_0[2]) % 64 == 8
    ensures Mix(Mix(SIG_0[2], MEM_0[2]), MEM_0[8]) == 38690516
  {
    hide Mix;
    Numbers1();
  }

  lemma Numbers2()
    ensures Mix(1, 1) == 923165 && Mix(1, 923165) == 100302216 && Mix(100302216, 38690516) == 23375252
  {
    hide Mix;
    MixIs(1, 1, 0, 1, 923165);
    MixIs(1, 923165, 22352, 36, 100302216);
    MixIs(100302216, 38690516, 936825, 32, 23375252);
  }

  lemma Loads2()
    ensures SIG_1[1] % 64 == 1 && Mix(SIG_1[1], MEM_1[1]) % 64 == 8
    ensures Mix(Mix(SIG_1[1], MEM_1[1]), MEM_1[8]) == 23375252
  {
    hide Mix;
    Numbers2();
  }

  /** Threads 2 and 1 have executed their first batch. */
  lemma TwoAtBarrier() returns (run: seq<Who>, g: R.State)
    ensures At(LATE_WAKES, THREE, run, MEM_2, SIG_2, g)
    ensures Shows(THREE, g, 1, -1, 0,
                  R.Member(R.Spin, -2, true, 0, 5),
                  R.Member(R.Spin, -3, false, 0, 5),
                  R.Member(R.Top, 0, false, 0, 6))
  {
    hide At;
    hide Mix;
    hide Pick;
    hide StartOf;
    hide LeaderOf;
    hide R.Init;
    run, g := Start();
    Loads1();
    FutexTurns.LiveLeader(GroupConfig(THREE, 0), g.live, 1);
    run, g := Join(LATE_WAKES, THREE, run, MEM_0, SIG_0, g, 2, 2, 8, 38690516);
    run, g := ToBarrier(LATE_WAKES, THREE, run, MEM_1, SIG_1, g, 2);
    Loads2();
    FutexTurns.LiveLeader(GroupConfig(THREE, 0), g.live, 1);
    run, g := Join(LATE_WAKES, THREE, run, MEM_1, SIG_1, g, 1, 1, 8, 23375252);
    run, g := ToBarrier(LATE_WAKES, THREE, run, MEM_2, SIG_2, g, 1);
  }

  lemma Numbers3()
    ensures Mix(3, 3) == 2769495 && Mix(59, 59) == 88533645 && Mix(3, 2769495) == 59823739
         && Mix(59823739, 88533645) == 43333453
  {
    hide Mix;
    MixIs(3, 3, 0, 3, 2769495);
    MixIs(59, 59, 1, 17, 88533645);
    MixIs(3, 2769495, 67058, 27, 59823739);
    MixIs(59823739, 88533645, 2143693, 11, 43333453);
  }

  lemma Loads3()
    ensures SIG_2[3] % 64 == 3 && Mix(SIG_2[3], MEM_2[3]) % 64 == 59
    ensures Mix(Mix(SIG_2[3], MEM_2[3]), MEM_2[59]) == 43333453
  {
    hide Mix;
    Numbers3();
  }

  /** Thread 1, the leader, has the next turn. */
  lemma FirstTurn() returns (run: seq<Who>, g: R.State)
    ensures At(LATE_WAKES, THREE, run, MEM_3, SIG_3, g)
    ensures Shows(THREE, g, 1, 1, 1,
                  R.Member(R.Top, -2, true, 0, 5),
                  R.Member(R.Spin, -3, false, 0, 5),
                  R.Member(R.Spin, -1, false, 0, 5))
  {
    hide At;
    hide Mix;
    hide Pick;
    hide StartOf;
    hide LeaderOf;
    hide R.Init;
    run, g := TwoAtBarrier();
    Loads3();
    FutexTurns.LiveLeader(GroupConfig(THREE, 0), g.live, 1);
    run, g := Join(LATE_WAKES, THREE, run, MEM_2, SIG_2, g, 3, 3, 59, 43333453);
    run, g := ToBarrier(LATE_WAKES, THREE, run, MEM_3, SIG_3, g, 3);
    Picks(THREE, g.live, 1, SIG_3[1], 1);
    run, g := Publish(LATE_WAKES, THREE, run, MEM_3, SIG_3, g, 1);
    run, g := Wake(LATE_WAKES, THREE, run, MEM_3, SIG_3, g, 1, {}, SIG_3);
  }

  lemma Numbers4()
    ensures Mix(20, 20) == 18463300 && Mix(35, 35) == 32310775 && Mix(23375252, 18463300) == 31750947
         && Mix(31750947, 32310775) == 63223990
  {
    hide Mix;
    MixIs(20, 20, 0, 20, 18463300);
    MixIs(35, 35, 0, 35, 32310775);
    MixIs(23375252, 18463300, 447057, 31, 31750947);
    MixIs(31750947, 32310775, 782351, 2, 63223990);
  }

  lemma Loads4()
    ensures SIG_3[1] % 64 == 20 && Mix(SIG_3[1], MEM_3[20]) % 64 == 35
    ensures Mix(Mix(SIG_3[1], MEM_3[20]), MEM_3[35]) == 63223990
  {
    hide Mix;
    Numbers4();
  }

  /** Thread 1 has given the turn to thread 3 and sleeps. */
  lemma ThirdIsNext() returns (run: seq<Who>, g: R.State)
    ensures At(LATE_WAKES, THREE, run, MEM_4, SIG_4, g)
    ensures Shows(THREE, g, 1, 3, 2,
                  R.Member(R.AsleepOwner, 3, true, 1, 4),
                  R.Member(R.Spin, -3, false, 0, 5),
                  R.Member(R.Spin, -1, false, 0, 5))
  {
    hide At;
    hide Mix;
    hide Pick;
    hide StartOf;
    hide LeaderOf;
    hide R.Init;
    run, g := FirstTurn();
    Loads4();
    run, g := Join(LATE_WAKES, THREE, run, MEM_3, SIG_3, g, 1, 20, 35, 63223990);
    Picks(THREE, g.live, 1, SIG_4[1], 3);
    run, g := PublishOne(LATE_WAKES, THREE, run, MEM_4, SIG_4, g, 1);
    run, g := Wake(LATE_WAKES, THREE, run, MEM_4, SIG_4, g, 1, {}, SIG_4);
    run, g := FallAsleep(LATE_WAKES, THREE, run, MEM_4, SIG_4, g, 1);
  }

  /** The others are back from the first turn. */
  lemma AllBack() returns (run: seq<Who>, g: R.State)
    ensures At(LATE_WAKES, THREE, run, MEM_4, SIG_4, g)
    ensures Shows(THREE, g, 1, 3, 2,
                  R.Member(R.AsleepOwner, 3, true, 1, 4),
                  R.Member(R.Top, -3, false, 0, 5),
                  R.Member(R.Top, -1, false, 0, 5))
  {
    hide At;
    hide Mix;
    hide Pick;
    hide StartOf;
    hide LeaderOf;
    hide R.Init;
    run, g := ThirdIsNext();
    run, g := Rejoin(LATE_WAKES, THREE, run, MEM_4, SIG_4, g, 2);
    run, g := Rejoin(LATE_WAKES, THREE, run, MEM_4, SIG_4, g, 3);
  }

  lemma Numbers5()
    ensures Mix(13, 13) == 12001145 && Mix(2, 2) == 1846330 && Mix(43333453, 12001145) == 72842370
         && Mix(72842370, 1846330) == 101369224
  {
    hide Mix;
    MixIs(13, 13, 0, 13, 12001145);
    MixIs(2, 2, 0, 2, 1846330);
    MixIs(43333453, 12001145, 290587, 22, 72842370);
    MixIs(72842370, 1846330, 44705, 32, 101369224);
  }

  lemma Loads5()
    ensures SIG_4[3] % 64 == 13 && Mix(SIG_4[3], MEM_4[13]) % 64 == 2
    ensures Mix(Mix(SIG_4[3], MEM_4[13]), MEM_4[2]) == 101369224
  {
    hide Mix;
    Numbers5();
  }

  /** Thread 3 has given the turn back. */
  lemma FirstAgain() returns (run: seq<Who>, g: R.State)
    ensures At(LATE_WAKES, THREE, run, MEM_5, SIG_6, g)
    ensures Shows(THREE, g, 1, 1, 3,
                  R.Member(R.Top, 3, true, 1, 4),
                  R.Member(R.Top, -3, false, 0, 5),
                  R.Member(R.Top, 3, true, 2, 4))
  {
    hide At;
    hide Mix;
    hide Pick;
    hide StartOf;
    hide LeaderOf;
    hide R.Init;
    run, g := AllBack();
    Loads5();
    run, g := Join(LATE_WAKES, THREE, run, MEM_4, SIG_4, g, 3, 13, 2, 101369224);
    Picks(THREE, g.live, 1, SIG_5[3], 1);
    run, g := PublishOne(LATE_WAKES, THREE, run, MEM_5, SIG_5, g, 3);
    run, g := Wake(LATE_WAKES, THREE, run, MEM_5, SIG_5, g, 3, {1}, SIG_6);
  }

  lemma Numbers6()
    ensures Mix(55, 55) == 84840985 && Mix(52, 52) == 82071490 && Mix(63223991, 84840985) == 24618420
         && Mix(24618420, 82071490) == 29261356
  {
    hide Mix;
    MixIs(55, 55, 1, 13, 84840985);
    MixIs(52, 52, 1, 10, 82071490);
    MixIs(63223991, 84840985, 2054281, 30, 24618420);
    MixIs(24618420, 82071490, 1987223, 2, 29261356);
  }

  lemma Loads6()
    ensures SIG_6[1] % 64 == 55 && Mix(SIG_6[1], MEM_5[55]) % 64 == 52
    ensures Mix(Mix(SIG_6[1], MEM_5[55]), MEM_5[52]) == 29261356
  {
    hide Mix;
    Numbers6();
  }

  /** Thread 1 keeps the turn. */
  lemma FirstOnceMore() returns (run: seq<Who>, g: R.State)
    ensures At(LATE_WAKES, THREE, run, MEM_6, SIG_7, g)
    ensures Shows(THREE, g, 1, 1, 4,
                  R.Member(R.Top, 1, true, 3, 3),
                  R.Member(R.Top, -3, false, 0, 5),
                  R.Member(R.Top, 3, true, 2, 4))
  {
    hide At;
    hide Mix;
    hide Pick;
    hide StartOf;
    hide LeaderOf;
    hide R.Init;
    run, g := FirstAgain();
    Loads6();
    run, g := Join(LATE_WAKES, THREE, run, MEM_5, SIG_6, g, 1, 55, 52, 29261356);
    Picks(THREE, g.live, 1, SIG_7[1], 1);
    run, g := PublishOne(LATE_WAKES, THREE, run, MEM_6, SIG_7, g, 1);
    run, g := Wake(LATE_WAKES, THREE, run, MEM_6, SIG_7, g, 1, {}, SIG_7);
  }

  lemma Numbers7()
    ensures Mix(44, 44) == 74686170 && Mix(45, 45) == 75609335 && Mix(29261356, 74686170) == 92745965
         && Mix(92745965, 75609335) == 84455213
  {
    hide Mix;
    MixIs(44, 44, 1, 2, 74686170);
    MixIs(45, 45, 1, 3, 75609335);
    MixIs(29261356, 74686170, 1808399, 39, 92745965);
    MixIs(92745965, 75609335, 1830752, 35, 84455213);
  }

  lemma Loads7()
    ensures SIG_7[1] % 64 == 44 && Mix(SIG_7[1], MEM_6[44]) % 64 == 45
    ensures Mix(Mix(SIG_7[1], MEM_6[44]), MEM_6[45]) == 84455213
  {
    hide Mix;
    Numbers7();
  }

  /** Thread 1 has given the turn to thread 2. */
  lemma SecondIsNext() returns (run: seq<Who>, g: R.State)
    ensures At(LATE_WAKES, THREE, run, MEM_7, SIG_8, g)
    ensures Shows(THREE, g, 1, 2, 5,
                  R.Member(R.Top, 1, true, 4, 2),
                  R.Member(R.Top, -3, false, 0, 5),
                  R.Member(R.Top, 3, true, 2, 4))
  {
    hide At;
    hide Mix;
    hide Pick;
    hide StartOf;
    hide LeaderOf;
    hide R.Init;
    run, g := FirstOnceMore();
    Loads7();
    run, g := Join(LATE_WAKES, THREE, run, MEM_6, SIG_7, g, 1, 44, 45, 84455213);
    Picks(THREE, g.live, 1, SIG_8[1], 2);
    run, g := PublishOne(LATE_WAKES, THREE, run, MEM_7, SIG_8, g, 1);
    run, g := Wake(LATE_WAKES, THREE, run, MEM_7, SIG_8, g, 1, {}, SIG_8);
  }

  lemma Numbers8()
    ensures Mix(20, 20) == 18463300 && Mix(38690516, 18463300) == 47066211 && Mix(47066211, 63223990) == 23929400
  {
    hide Mix;
    MixIs(20, 20, 0, 20, 18463300);
    MixIs(38690516, 18463300, 447057, 31, 47066211);
    MixIs(47066211, 63223990, 1530862, 23, 23929400);
  }

  lemma Loads8()
    ensures SIG_8[2] % 64 == 20 && Mix(SIG_8[2], MEM_7[20]) % 64 == 35
    ensures Mix(Mix(SIG_8[2], MEM_7[20]), MEM_7[35]) == 23929400
  {
    hide Mix;
    Numbers8();
  }

  /** Thread 1 has the turn, and is ahead of the others. */
  lemma FirstIsAhead() returns (run: seq<Who>, g: R.State)
    ensures At(LATE_WAKES, THREE, run, MEM_8, SIG_9, g)
    ensures Shows(THREE, g, 1, 1, 6,
                  R.Member(R.Top, 1, true, 4, 2),
                  R.Member(R.Top, 2, true, 5, 4),
                  R.Member(R.Top, 3, true, 2, 4))
  {
    hide At;
    hide Mix;
    hide Pick;
    hide StartOf;
    hide LeaderOf;
    hide R.Init;
    run, g := SecondIsNext();
    Loads8();
    run, g := Join(LATE_WAKES, THREE, run, MEM_7, SIG_8, g, 2, 20, 35, 23929400);
    Picks(THREE, g.live, 1, SIG_9[2], 1);
    run, g := PublishOne(LATE_WAKES, THREE, run, MEM_8, SIG_9, g, 2);
    run, g := Wake(LATE_WAKES, THREE, run, MEM_8, SIG_9, g, 2, {}, SIG_9);
  }

  lemma Numbers9()
    ensures Mix(49, 49) == 79301995 && Mix(84455213, 84455213) == 97706673 && Mix(97706673, 79301995) == 8458963
  {
    hide Mix;
    MixIs(49, 49, 1, 7, 79301995);
    MixIs(84455213, 84455213, 2044940, 37, 97706673);
    MixIs(97706673, 79301995, 1920164, 17, 8458963);
  }

  lemma Loads9()
    ensures SIG_9[1] % 64 == 45 && Mix(SIG_9[1], MEM_8[45]) % 64 == 49
    ensures Mix(Mix(SIG_9[1], MEM_8[45]), MEM_8[49]) == 8458963
  {
    hide Mix;
    Numbers9();
  }

  /** The group is next, and thread 1 has one iteration left. */
  lemma LastBatchNext() returns (run: seq<Who>, g: R.State)
    ensures At(LATE_WAKES, THREE, run, MEM_9, SIG_10, g)
    ensures Shows(THREE, g, 1, -3, 7,
                  R.Member(R.Top, 1, true, 6, 1),
                  R.Member(R.Top, 2, true, 5, 4),
                  R.Member(R.Top, 3, true, 2, 4))
  {
    hide At;
    hide Mix;
    hide Pick;
    hide StartOf;
    hide LeaderOf;
    hide R.Init;
    run, g := FirstIsAhead();
    Loads9();
    run, g := Join(LATE_WAKES, THREE, run, MEM_8, SIG_9, g, 1, 45, 49, 8458963);
    Picks(THREE, g.live, 1, SIG_10[1], 4);
    run, g := PublishOne(LATE_WAKES, THREE, run, MEM_9, SIG_10, g, 1);
    run, g := Wake(LATE_WAKES, THREE, run, MEM_9, SIG_10, g, 1, {}, SIG_10);
  }

  lemma Numbers10()
    ensures Mix(56, 56) == 85764150 && Mix(39, 39) == 36003435 && Mix(23929400, 85764150) == 16620711
         && Mix(16620711, 36003435) == 36142129
  {
    hide Mix;
    MixIs(56, 56, 1, 14, 85764150);
    MixIs(39, 39, 0, 39, 36003435);
    MixIs(23929400, 85764150, 2076634, 25, 16620711);
    MixIs(16620711, 36003435, 871762, 25, 36142129);
  }

  lemma Loads10()
    ensures SIG_10[2] % 64 == 56 && Mix(SIG_10[2], MEM_9[56]) % 64 == 39
    ensures Mix(Mix(SIG_10[2], MEM_9[56]), MEM_9[39]) == 36142129
  {
    hide Mix;
    Numbers10();
  }

  lemma Numbers11()
    ensures Mix(17, 17) == 15693805 && Mix(101369224, 23375252) == 64811025 && Mix(64811025, 15693805) == 13362984
  {
    hide Mix;
    MixIs(17, 17, 0, 17, 15693805);
    MixIs(101369224, 23375252, 565992, 17, 64811025);
    MixIs(64811025, 15693805, 379999, 4, 13362984);
  }

  lemma Loads11()
    ensures SIG_11[3] % 64 == 8 && Mix(SIG_11[3], MEM_10[8]) % 64 == 17
    ensures Mix(Mix(SIG_11[3], MEM_10[8]), MEM_10[17]) == 13362984
  {
    hide Mix;
    Numbers11();
  }

  /** Threads 2 and 3 are at the barrier. */
  lemma TwoWait() returns (run: seq<Who>, g: R.State)
    ensures At(LATE_WAKES, THREE, run, MEM_11, SIG_12, g)
    ensures Shows(THREE, g, 1, -1, 7,
                  R.Member(R.Top, 1, true, 6, 1),
                  R.Member(R.Spin, -3, false, 7, 3),
                  R.Member(R.Spin, -2, false, 7, 3))
  {
    hide At;
    hide Mix;
    hide Pick;
    hide StartOf;
    hide LeaderOf;
    hide R.Init;
    run, g := LastBatchNext();
    Loads10();
    FutexTurns.LiveLeader(GroupConfig(THREE, 0), g.live, 1);
    run, g := Join(LATE_WAKES, THREE, run, MEM_9, SIG_10, g, 2, 56, 39, 36142129);
    run, g := ToBarrier(LATE_WAKES, THREE, run, MEM_10, SIG_11, g, 2);
    Loads11();
    FutexTurns.LiveLeader(GroupConfig(THREE, 0), g.live, 1);
    run, g := Join(LATE_WAKES, THREE, run, MEM_10, SIG_11, g, 3, 8, 17, 13362984);
    run, g := ToBarrier(LATE_WAKES, THREE, run, MEM_11, SIG_12, g, 3);
  }

  lemma Numbers12()
    ensures Mix(19, 19) == 17540135 && Mix(8458963, 17540135) == 88610019 && Mix(88610019, 23929400) == 58394758
  {
    hide Mix;
    MixIs(19, 19, 0, 19, 17540135);
    MixIs(8458963, 17540135, 424704, 35, 88610019);
    MixIs(88610019, 23929400, 579410, 7, 58394758);
  }

  lemma Loads12()
    ensures SIG_12[1] % 64 == 19 && Mix(SIG_12[1], MEM_11[19]) % 64 == 35
    ensures Mix(Mix(SIG_12[1], MEM_11[19]), MEM_11[35]) == 58394758
  {
    hide Mix;
    Numbers12();
  }

  /** Thread 1 has led its last turn; its wake is yet to come. */
  lemma Finished() returns (run: seq<Who>, g: R.State)
    ensures At(LATE_WAKES, THREE, run, MEM_12, SIG_13, g)
    ensures Shows(THREE, g, 2, 3, 8,
                  R.Member(R.WakeAll, -1, true, 7, 0),
                  R.Member(R.Spin, -3, false, 7, 3),
                  R.Member(R.Spin, -2, false, 7, 3))
  {
    hide At;
    hide Mix;
    hide Pick;
    hide StartOf;
    hide LeaderOf;
    hide R.Init;
    run, g := TwoWait();
    Loads12();
    FutexTurns.LiveLeader(GroupConfig(THREE, 0), g.live, 1);
    run, g := Join(LATE_WAKES, THREE, run, MEM_11, SIG_12, g, 1, 19, 35, 58394758);
    run, g := ToBarrier(LATE_WAKES, THREE, run, MEM_12, SIG_13, g, 1);
    Picks(THREE, g.live, 2, SIG_13[1], 3);
    run, g := Publish(LATE_WAKES, THREE, run, MEM_12, SIG_13, g, 1);
  }

  /** Nobody waits for that wake any more. */
  lemma NobodyWaits() returns (run: seq<Who>, g: R.State)
    ensures At(LATE_WAKES, THREE, run, MEM_12, SIG_13, g)
    ensures Shows(THREE, g, 2, 3, 8,
                  R.Member(R.WakeAll, -1, true, 7, 0),
                  R.Member(R.Top, -3, false, 7, 3),
                  R.Member(R.Top, -2, false, 7, 3))
  {
    hide At;
    hide Mix;
    hide Pick;
    hide StartOf;
    hide LeaderOf;
    hide R.Init;
    run, g := Finished();
    run, g := Rejoin(LATE_WAKES, THREE, run, MEM_12, SIG_13, g, 2);
    run, g := Rejoin(LATE_WAKES, THREE, run, MEM_12, SIG_13, g, 3);
  }

  lemma Numbers13()
    ensures Mix(40, 40) == 36926600 && Mix(36, 36) == 33233940 && Mix(13362984, 36926600) == 64181284
         && Mix(64181284, 33233940) == 92884299
  {
    hide Mix;
    MixIs(40, 40, 0, 40, 36926600);
    MixIs(36, 36, 0, 36, 33233940);
    MixIs(13362984, 36926600, 894115, 20, 64181284);
    MixIs(64181284, 33233940, 804703, 39, 92884299);
  }

  lemma Loads13()
    ensures SIG_13[3] % 64 == 40 && Mix(SIG_13[3], MEM_12[40]) % 64 == 36
    ensures Mix(Mix(SIG_13[3], MEM_12[40]), MEM_12[36]) == 92884299
  {
    hide Mix;
    Numbers13();
  }

  /** Thread 3 has had a turn, and the group is next. */
  lemma GroupIsNext() returns (run: seq<Who>, g: R.State)
    ensures At(LATE_WAKES, THREE, run, MEM_13, SIG_14, g)
    ensures Shows(THREE, g, 2, -2, 9,
                  R.Member(R.WakeAll, -1, true, 7, 0),
                  R.Member(R.Top, -3, false, 7, 3),
                  R.Member(R.Top, 3, true, 8, 2))
  {
    hide At;
    hide Mix;
    hide Pick;
    hide StartOf;
    hide LeaderOf;
    hide R.Init;
    run, g := NobodyWaits();
    Loads13();
    run, g := Join(LATE_WAKES, THREE, run, MEM_12, SIG_13, g, 3, 40, 36, 92884299);
    Picks(THREE, g.live, 2, SIG_14[3], 4);
    run, g := PublishOne(LATE_WAKES, THREE, run, MEM_13, SIG_14, g, 3);
    run, g := Wake(LATE_WAKES, THREE, run, MEM_13, SIG_14, g, 3, {}, SIG_14);
  }

  lemma Numbers14()
    ensures Mix(57, 57) == 86687315 && Mix(36142129, 8458963) == 58864057 && Mix(58864057, 86687315) == 82852250
  {
    hide Mix;
    MixIs(57, 57, 1, 15, 86687315);
    MixIs(36142129, 8458963, 204819, 23, 58864057);
    MixIs(58864057, 86687315, 2098987, 20, 82852250);
  }

  lemma Loads14()
    ensures SIG_14[2] % 64 == 49 && Mix(SIG_14[2], MEM_13[49]) % 64 == 57
    ensures Mix(Mix(SIG_14[2], MEM_13[49]), MEM_13[57]) == 82852250
  {
    hide Mix;
    Numbers14();
  }

  lemma Numbers15()
    ensures Mix(11, 11) == 10154815 && Mix(28, 28) == 25848620 && Mix(92884299, 10154815) == 59799452
         && Mix(59799452, 25848620) == 78338807
  {
    hide Mix;
    MixIs(11, 11, 0, 11, 10154815);
    MixIs(28, 28, 0, 28, 25848620);
    MixIs(92884299, 10154815, 245881, 32, 59799452);
    MixIs(59799452, 25848620, 625880, 35, 78338807);
  }

  lemma Loads15()
    ensures SIG_15[3] % 64 == 11 && Mix(SIG_15[3], MEM_14[11]) % 64 == 28
    ensures Mix(Mix(SIG_15[3], MEM_14[11]), MEM_14[28]) == 78338807
  {
    hide Mix;
    Numbers15();
  }

  /** Thread 3 waits for the end of the new turn. */
  lemma ThirdWaits() returns (run: seq<Who>, g: R.State)
    ensures At(LATE_WAKES, THREE, run, MEM_15, SIG_16, g)
    ensures Shows(THREE, g, 2, 0, 9,
                  R.Member(R.WakeAll, -1, true, 7, 0),
                  R.Member(R.Spin, -2, true, 9, 2),
                  R.Member(R.AsleepRound, -1, false, 9, 1))
  {
    hide At;
    hide Mix;
    hide Pick;
    hide StartOf;
    hide LeaderOf;
    hide R.Init;
    run, g := GroupIsNext();
    Loads14();
    FutexTurns.LiveLeader(GroupConfig(THREE, 0), g.live, 2);
    run, g := Join(LATE_WAKES, THREE, run, MEM_13, SIG_14, g, 2, 49, 57, 82852250);
    run, g := ToBarrier(LATE_WAKES, THREE, run, MEM_14, SIG_15, g, 2);
    Loads15();
    FutexTurns.LiveLeader(GroupConfig(THREE, 0), g.live, 2);
    run, g := Join(LATE_WAKES, THREE, run, MEM_14, SIG_15, g, 3, 11, 28, 78338807);
    run, g := ToBarrier(LATE_WAKES, THREE, run, MEM_15, SIG_16, g, 3);
    run, g := Doze(LATE_WAKES, THREE, run, MEM_15, SIG_16, g, 3);
  }

  /** The late wake has sent thread 3 from `round` to `owner`. */
  lemma WokenTooEarly() returns (run: seq<Who>, g: R.State)
    ensures At(LATE_WAKES, THREE, run, MEM_15, SIG_16, g)
    ensures Shows(THREE, g, 2, 0, 9,
                  R.Member(R.Returned, -1, true, 7, 0),
                  R.Member(R.Spin, -2, true, 9, 2),
                  R.Member(R.AsleepOwner, 0, false, 9, 1))
  {
    hide At;
    hide Mix;
    hide Pick;
    hide StartOf;
    hide LeaderOf;
    hide R.Init;
    run, g := ThirdWaits();
    run, g := Wake(LATE_WAKES, THREE, run, MEM_15, SIG_16, g, 1, {3}, SIG_16);
    run, g := SmallStep(LATE_WAKES, THREE, run, MEM_15, SIG_16, g, 1);
    run, g := FallAsleep(LATE_WAKES, THREE, run, MEM_15, SIG_16, g, 3);
  }

  /** Thread 2 has given the turn to thread 3, and sleeps too. */
  lemma AllAsleep() returns (run: seq<Who>, g: R.State)
    ensures At(LATE_WAKES, THREE, run, MEM_15, SIG_16, g)
    ensures Shows(THREE, g, 2, 3, 10,
                  R.Member(R.Returned, -1, true, 7, 0),
                  R.Member(R.AsleepOwner, 3, true, 9, 2),
                  R.Member(R.AsleepOwner, 0, false, 9, 1))
  {
    hide At;
    hide Mix;
    hide Pick;
    hide StartOf;
    hide LeaderOf;
    hide R.Init;
    run, g := WokenTooEarly();
    Picks(THREE, g.live, 2, SIG_16[2], 3);
    run, g := Publish(LATE_WAKES, THREE, run, MEM_15, SIG_16, g, 2);
    run, g := Wake(LATE_WAKES, THREE, run, MEM_15, SIG_16, g, 2, {}, SIG_16);
    run, g := FallAsleep(LATE_WAKES, THREE, run, MEM_15, SIG_16, g, 2);
  }

  /** Threads 2 and 3 sleep although it is the turn of thread 3, and nobody else is left. */
  lemma ExactWakesAreNeeded() returns (run: seq<Who>, s: State)
    ensures Exec(Next(R.ALL_RULES.(exactWakes := false), THREE), Init(THREE), run) == Some(s) && Sized(THREE, s)
    ensures Stuck(R.ALL_RULES.(exactWakes := false), THREE, s)
    ensures s.groups[0].owner == 3 && s.groups[0].members[3].pc == R.AsleepOwner && s.groups[0].members[3].left > 0
  {
    var g;
    run, g := AllAsleep();
    s := Whole(THREE, MEM_15, SIG_16, g);
    AtSized(LATE_WAKES, THREE, run, MEM_15, SIG_16, g);
    InitGroups(THREE, 0);
    assert s.groups[0] == g;
    forall l: Who
      ensures !Moves(R.ALL_RULES.(exactWakes := false), THREE, s, l)
    {
      NobodyMoves(g, l.t);
      EmptyGroups(l.g, l.t);
    }
  }

  lemma NobodyMoves(g: R.State, t: nat)
    requires Shows(THREE, g, 2, 3, 10, R.Member(R.Returned, -1, true, 7, 0),
                   R.Member(R.AsleepOwner, 3, true, 9, 2), R.Member(R.AsleepOwner, 0, false, 9, 1))
    ensures !R.Moves(R.ALL_RULES.(exactWakes := false), GroupConfig(THREE, 0), g, t)
  {
  }

  lemma EmptyGroups(i: nat, t: nat)
    ensures 0 < i < NFUTEX ==> !R.IsMember(GroupConfig(THREE, i), t)
  {
  }
}
