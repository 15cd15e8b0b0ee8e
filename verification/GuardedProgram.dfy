/**
 The thread body of racey-guarded.c over its arrays and locks, as one thread executes it while
 no other thread runs.
 */
module GuardedProgram {
  import opened Mixing
  import opened Runs
  import opened Shared
  import SharedLoop
  import Sections

  class Program {
    const c: Config
    const m: array<nat>
    const sig: array<nat>
    const locks: array<Option<nat>>

    ghost predicate Valid()
    {
      && m.Length == c.elems && sig.Length == c.procs + 1 && locks.Length == c.locks
      && m != sig
    }

    ghost predicate AllFree()
      reads locks
    {
      forall l :: 0 <= l < locks.Length ==> locks[l] == None
    }

    constructor (c: Config)
      ensures Valid() && AllFree() && fresh(m) && fresh(sig) && fresh(locks) && this.c == c
      ensures m[..] == InitialElements(c.elems) && sig[..] == InitialSig(c.procs)
    {
      this.c := c;
      m := new nat[c.elems];
      sig := new nat[c.procs + 1](t => t);
      locks := new Option<nat>[c.locks](_ => None);
      new;
      InitElements(m);
    }

    /** One attempt at the lock of `index`: a thread to which it is not granted stays blocked in it. */
    method LockItem(index: nat, threadId: nat) returns (granted: bool)
      requires Valid()
      modifies locks
      ensures granted <==> old(locks[index % c.locks]) == None
      ensures locks[..] == if granted then old(locks[..])[index % c.locks := Some(threadId)] else old(locks[..])
    {
      granted := locks[index % c.locks] == None;
      if granted {
        locks[index % c.locks] := Some(threadId);
      }
    }

    /** Only the owner of a mutex may unlock it. */
    method UnlockItem(index: nat, threadId: nat)
      requires Valid() && locks[index % c.locks] == Some(threadId)
      modifies locks
      ensures locks[..] == old(locks[..])[index % c.locks := None]
    {
      locks[index % c.locks] := None;
    }

    method ThreadBody(threadId: nat)
      requires Valid() && AllFree() && 1 <= threadId <= c.procs
      modifies m, sig, locks
      ensures AllFree()
      ensures m[..] == SharedLoop.Iterate(old(m[..]), old(sig[threadId]), c.maxLoop).0
      ensures sig[..]
           == old(sig[..])[threadId := SharedLoop.Iterate(old(m[..]), old(sig[threadId]), c.maxLoop).1]
    {
      hide Mix;
      for i := 0 to c.maxLoop
        invariant AllFree()
        invariant m[..] == SharedLoop.Iterate(old(m[..]), old(sig[threadId]), i).0
        invariant sig[..] == old(sig[..])[threadId := SharedLoop.Iterate(old(m[..]), old(sig[threadId]), i).1]
      {
        var num := sig[threadId];
        assert num == sig[..][threadId];
        var index1 := num % c.elems;
        var granted := LockItem(index1, threadId);
        num := Mix(num, m[index1]);
        UnlockItem(index1, threadId);
        var index2 := num % c.elems;
        granted := LockItem(index2, threadId);
        num := Mix(num, m[index2]);
        m[index2] := num;
        UnlockItem(index2, threadId);
        sig[threadId] := num;
      }
    }
  }

  lemma OneIteration(c: Config, s: Sections.State, t: nat)
    requires Sections.Sized(c, s) && 1 <= t <= c.procs
    requires s.threads[t].phase == Sections.First && s.threads[t].i < c.maxLoop
    ensures Exec(Sections.Next(c), s, [t, t]) == Some(Solo(s, t, 1))
  {
    var s1 := Sections.Step(c, s, t);
    ExecCons(Sections.Next(c), s, t, [t]);
    ExecOne(Sections.Next(c), s1, t);
    assert SharedLoop.Iterate(s.m, s.sig[t], 0) == (s.m, s.sig[t]);
    assert Sections.Step(c, s1, t).threads == Solo(s, t, 1).threads;
  }

  /** The state after `n` iterations of `t`, according to the loop body. */
  function Solo(s: Sections.State, t: nat, n: nat): Sections.State
    requires |s.m| > 0 && t < |s.sig| == |s.threads|
  {
    var (m, num) := SharedLoop.Iterate(s.m, s.sig[t], n);
    Sections.State(m, s.sig[t := num],
                   s.threads[t := Sections.Thread(s.threads[t].i + n, Sections.First)])
  }

  lemma SoloNext(s: Sections.State, t: nat, n: nat)
    requires |s.m| > 0 && t < |s.sig| == |s.threads|
    ensures Solo(Solo(s, t, n), t, 1) == Solo(s, t, n + 1)
  {
    var s0 := Solo(s, t, n);
    assert SharedLoop.Iterate(s0.m, s0.sig[t], 0) == (s0.m, s0.sig[t]);
    assert Solo(s0, t, 1).threads == Solo(s, t, n + 1).threads;
    assert Solo(s0, t, 1).sig == Solo(s, t, n + 1).sig;
  }

  /** ThreadBody is the run of sections in which only that thread is scheduled. */
  lemma {:induction false} SoloSections(c: Config, s: Sections.State, t: nat, n: nat)
    requires Sections.Sized(c, s) && 1 <= t <= c.procs
    requires s.threads[t].phase == Sections.First && s.threads[t].i + n <= c.maxLoop
    ensures Exec(Sections.Next(c), s, SharedLoop.Repeat(t, 2 * n)) == Some(Solo(s, t, n))
  {
    hide Mix;
    if n == 0 {
      assert Solo(s, t, 0).sig == s.sig && Solo(s, t, 0).threads == s.threads;
    } else {
      SoloSections(c, s, t, n - 1);
      var before := SharedLoop.Repeat(t, 2 * (n - 1));
      OneIteration(c, Solo(s, t, n - 1), t);
      SoloNext(s, t, n - 1);
      ExecAppend(Sections.Next(c), s, before, [t, t]);
      assert SharedLoop.Repeat(t, 2 * n) == before + [t, t];
    }
  }
}
