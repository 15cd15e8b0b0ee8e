/**
 What the locks of racey-guarded.c rule out: a result of the unguarded loop that they exclude.  Two
 threads with one iteration each both store to element 8.
 */
module LostUpdate {
  import opened Mixing
  import opened Runs
  import opened Shared
  import opened LockOrder
  import Sections
  import L = SharedLoop

  /** m[], of which only element 8 changes. */
  function Memory(x: nat): seq<nat> { InitialElements(64)[8 := x] }

  /** The unguarded loop: element 8, the sig[] entries and the states of the two threads. */
  function LoopState(x: nat, sig1: nat, sig2: nat, t1: L.Thread, t2: L.Thread): L.State
  {
    L.State(Memory(x), [0, sig1, sig2], [L.Thread(L.Top, 0, 0, 0), t1, t2])
  }

  ghost predicate Reached(run: seq<nat>, s: L.State)
  {
    Exec(L.Next(TWO_THREADS), L.Init(TWO_THREADS), run) == Some(s)
  }

  lemma GoOn(run: seq<nat>, s: L.State, t: nat, s': L.State) returns (run': seq<nat>)
    requires Reached(run, s) && L.Moves(TWO_THREADS, s, t) && L.Step(TWO_THREADS, s, t) == s'
    ensures Reached(run', s')
  {
    run' := run + [t];
    ExecAppend(L.Next(TWO_THREADS), L.Init(TWO_THREADS), run, [t]);
    ExecOne(L.Next(TWO_THREADS), s, t);
  }

  const IDLE: L.Thread := L.Thread(L.Top, 0, 0, 0)

  /** What each thread is about to store if it has loaded nothing but initial values. */
  const LOADED_1: L.Thread := L.Thread(L.Write, 0, 7393633, 8)
  const LOADED_2: L.Thread := L.Thread(L.Write, 0, 38690516, 8)

  lemma InitialMemory(k: nat)
    requires k < 64
    ensures InitialElements(64)[k] == Mix(k, k) && Memory(7385320) == InitialElements(64)
  {
    NumbersOfTwo();
  }

  lemma Begin() returns (run: seq<nat>)
    ensures Reached(run, LoopState(7385320, 1, 2, IDLE, IDLE))
  {
    run := [];
    InitialMemory(0);
    hide Mix;
    assert L.Init(TWO_THREADS).threads == [IDLE, IDLE, IDLE];
    assert L.Init(TWO_THREADS).sig == [0, 1, 2];
  }

  lemma FirstLoads() returns (run: seq<nat>)
    ensures Reached(run, LoopState(7385320, 1, 2, LOADED_1, IDLE))
  {
    hide Mix;
    hide L.Init;
    hide Reached;
    NumbersOfTwo();
    InitialMemory(1);
    var a, b := L.Thread(L.Read1, 0, 1, 1), L.Thread(L.Read2, 0, 100302216, 8);
    run := Begin();
    run := GoOn(run, LoopState(7385320, 1, 2, IDLE, IDLE), 1, LoopState(7385320, 1, 2, a, IDLE));
    run := GoOn(run, LoopState(7385320, 1, 2, a, IDLE), 1, LoopState(7385320, 1, 2, b, IDLE));
    run := GoOn(run, LoopState(7385320, 1, 2, b, IDLE), 1, LoopState(7385320, 1, 2, LOADED_1, IDLE));
  }

  /** Both threads have loaded everything before either stores. */
  lemma BothLoad() returns (run: seq<nat>)
    ensures Reached(run, LoopState(7385320, 1, 2, LOADED_1, LOADED_2))
  {
    hide Mix;
    hide L.Init;
    hide Reached;
    NumbersOfTwo();
    InitialMemory(2);
    var a, b := L.Thread(L.Read1, 0, 2, 2), L.Thread(L.Read2, 0, 28526856, 8);
    run := FirstLoads();
    run := GoOn(run, LoopState(7385320, 1, 2, LOADED_1, IDLE), 2, LoopState(7385320, 1, 2, LOADED_1, a));
    run := GoOn(run, LoopState(7385320, 1, 2, LOADED_1, a), 2, LoopState(7385320, 1, 2, LOADED_1, b));
    run := GoOn(run, LoopState(7385320, 1, 2, LOADED_1, b), 2, LoopState(7385320, 1, 2, LOADED_1, LOADED_2));
  }

  lemma FirstStores() returns (run: seq<nat>, t1: L.Thread)
    ensures Reached(run, LoopState(7393633, 7393633, 2, t1, LOADED_2)) && t1.pc == L.Done && t1.index == 8
  {
    hide Mix;
    hide L.Init;
    hide Reached;
    run := BothLoad();
    var x, a, b := 7393633, LOADED_1.(pc := L.Store), LOADED_1.(pc := L.Top, i := 1);
    t1 := b.(pc := L.Done);
    run := GoOn(run, LoopState(7385320, 1, 2, LOADED_1, LOADED_2), 1, LoopState(x, 1, 2, a, LOADED_2));
    run := GoOn(run, LoopState(x, 1, 2, a, LOADED_2), 1, LoopState(x, x, 2, b, LOADED_2));
    run := GoOn(run, LoopState(x, x, 2, b, LOADED_2), 1, LoopState(x, x, 2, t1, LOADED_2));
  }

  /** The store of thread 2 overwrites that of thread 1, which it has not seen. */
  lemma BothStore() returns (run: seq<nat>, t1: L.Thread, t2: L.Thread)
    ensures Reached(run, LoopState(38690516, 7393633, 38690516, t1, t2)) && t1.pc == L.Done == t2.pc
    ensures t1.index == 8 == t2.index
  {
    hide Mix;
    hide L.Init;
    hide Reached;
    run, t1 := FirstStores();
    var x, y, a, b := 7393633, 38690516, LOADED_2.(pc := L.Store), LOADED_2.(pc := L.Top, i := 1);
    t2 := b.(pc := L.Done);
    run := GoOn(run, LoopState(x, x, 2, t1, LOADED_2), 2, LoopState(y, x, 2, t1, a));
    run := GoOn(run, LoopState(y, x, 2, t1, a), 2, LoopState(y, x, y, t1, b));
    run := GoOn(run, LoopState(y, x, y, t1, b), 2, LoopState(y, x, y, t1, t2));
  }

  // ----- No order of whole sections loses the update

  /** The second thread to store has loaded what the first one stored. */
  ghost predicate NothingLost(s: Sections.State)
  {
    && Sections.Sized(TWO_THREADS, s)
    && var t1, t2 := s.threads[1], s.threads[2];
    && t1.i <= 1 && t2.i <= 1 && (t1.i == 1 ==> t1.phase.First?) && (t2.i == 1 ==> t2.phase.First?)
    && (t1.i == 0 ==> t1.phase in {Sections.First, Sections.Second(100302216)})
    && (t2.i == 0 ==> t2.phase in {Sections.First, Sections.Second(28526856)})
    && (t1.i == 0 && t2.i == 0 ==> s.m == Memory(7385320) && s.sig == [0, 1, 2])
    && (t1.i == 1 && t2.i == 0 ==> s.m == Memory(7393633) && s.sig == [0, 7393633, 2])
    && (t1.i == 0 && t2.i == 1 ==> s.m == Memory(38690516) && s.sig == [0, 1, 38690516])
    && (t1.i == 1 && t2.i == 1 ==> s.sig != [0, 7393633, 38690516])
  }

  lemma SectionLosesNothing(s: Sections.State, t: nat)
    requires NothingLost(s) && Sections.Moves(TWO_THREADS, s, t)
    ensures NothingLost(Sections.Step(TWO_THREADS, s, t))
  {
    hide Mix;
    NumbersOfTwo();
    InitialMemory(1);
    InitialMemory(2);
    var s' := Sections.Step(TWO_THREADS, s, t);
    if s.threads[t].phase.Second? {
      assert s'.sig[t] == s'.m[8];
    }
  }

  lemma {:induction false} SectionsLoseNothing(s: Sections.State, run: seq<nat>)
    requires NothingLost(s) && Exec(Sections.Next(TWO_THREADS), s, run).Some?
    ensures NothingLost(Exec(Sections.Next(TWO_THREADS), s, run).value)
    decreases |run|
  {
    hide NothingLost;
    if run != [] {
      SectionLosesNothing(s, run[0]);
      SectionsLoseNothing(Sections.Step(TWO_THREADS, s, run[0]), run[1..]);
    }
  }

  lemma UpdateCanBeLost()
    ensures L.IsResult(TWO_THREADS, Memory(38690516), [0, 7393633, 38690516])
  {
    hide Mix;
    var run, t1, t2 := BothStore();
    assert L.Finishes(TWO_THREADS, run, Memory(38690516), [0, 7393633, 38690516]);
  }

  /** The inclusion of results is strict: an update that the loop can lose is never lost under locks. */
  lemma LocksExcludeLostUpdate()
    ensures L.IsResult(TWO_THREADS, Memory(38690516), [0, 7393633, 38690516])
    ensures !IsResult(TWO_THREADS, Memory(38690516), [0, 7393633, 38690516])
  {
    hide Mix;
    var m, sig := Memory(38690516), [0, 7393633, 38690516];
    UpdateCanBeLost();
    Reduction(TWO_THREADS, m, sig);
    if IsSectionsResult(TWO_THREADS, m, sig) {
      var run :| SectionsFinish(TWO_THREADS, run, m, sig);
      InitialMemory(0);
      assert Sections.Init(TWO_THREADS).sig == [0, 1, 2];
      SectionsLoseNothing(Sections.Init(TWO_THREADS), run);
    }
  }
}
