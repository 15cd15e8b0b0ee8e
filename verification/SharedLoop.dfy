/**
 The unguarded main loop of racey-nobarrier.c, which racey-basic.c runs behind a barrier and
 racey-guarded.c runs under locks.  Each load and each store of m[] is one step.
 */
module SharedLoop {
  import opened Mixing
  import opened Runs
  import opened Shared

  datatype Pc = Top | Read1 | Read2 | Write | Store | Done
  datatype Thread = Thread(pc: Pc, i: nat, num: nat, index: nat)
  datatype State = State(m: seq<nat>, sig: seq<nat>, threads: seq<Thread>)

  function Init(c: Config): State
  {
    State(InitialElements(c.elems), InitialSig(c.procs), seq(c.procs + 1, _ => Thread(Top, 0, 0, 0)))
  }

  predicate Sized(c: Config, s: State)
  {
    && |s.m| == c.elems && |s.sig| == |s.threads| == c.procs + 1
    && forall t :: 0 <= t <= c.procs ==> s.threads[t].index < c.elems
  }

  predicate Moves(c: Config, s: State, t: nat)
  {
    Sized(c, s) && 1 <= t <= c.procs && s.threads[t].pc != Done
  }

  function Step(c: Config, s: State, t: nat): (s': State)
    requires Moves(c, s, t)
    ensures Sized(c, s')
  {
    var th := s.threads[t];
    match th.pc
    case Top =>
      var num := s.sig[t];
      s.(threads := s.threads[t := if th.i < c.maxLoop then Thread(Read1, th.i, num, num % c.elems)
                                   else th.(pc := Done)])
    case Read1 =>
      var num := Mix(th.num, s.m[th.index]);
      s.(threads := s.threads[t := Thread(Read2, th.i, num, num % c.elems)])
    case Read2 =>
      s.(threads := s.threads[t := th.(pc := Write, num := Mix(th.num, s.m[th.index]))])
    case Write =>
      s.(m := s.m[th.index := th.num], threads := s.threads[t := th.(pc := Store)])
    case Store =>
      s.(sig := s.sig[t := th.num], threads := s.threads[t := th.(pc := Top, i := th.i + 1)])
  }

  function Next(c: Config): (State, nat) -> Option<State>
  {
    (s: State, t: nat) => if Moves(c, s, t) then Some(Step(c, s, t)) else None
  }

  predicate AllDone(c: Config, s: State)
  {
    Sized(c, s) && forall t :: 1 <= t <= c.procs ==> s.threads[t].pc == Done
  }

  /** `m` and `sig` are left behind by some run that every thread has finished. */
  ghost predicate IsResult(c: Config, m: seq<nat>, sig: seq<nat>)
  {
    exists run :: Finishes(c, run, m, sig)
  }

  ghost predicate Finishes(c: Config, run: seq<nat>, m: seq<nat>, sig: seq<nat>)
  {
    match Exec(Next(c), Init(c), run)
    case None => false
    case Some(s) => AllDone(c, s) && s.m == m && s.sig == sig
  }

  // ----- The loop as one thread executes it undisturbed

  /** `m` and sig[t] after `n` iterations of one thread. */
  function Iterate(m: seq<nat>, num: nat, n: nat): (r: (seq<nat>, nat))
    requires |m| > 0
    ensures |r.0| == |m|
  {
    if n == 0 then (m, num)
    else
      var (m1, num0) := Iterate(m, num, n - 1);
      var num1 := Mix(num0, m1[num0 % |m|]);
      var num2 := Mix(num1, m1[num1 % |m|]);
      (m1[num1 % |m| := num2], num2)
  }

  /** One more iteration in plain arithmetic: two elements are mixed in, and the second is overwritten. */
  lemma IterateIsFlat(m: seq<nat>, num: nat, n: nat)
    requires |m| > 0
    ensures Iterate(m, num, 0) == (m, num)
    ensures var (m0, num0) := Iterate(m, num, n);
            var num1 := (num0 + m0[num0 % |m|] * PRIME2) % W % PRIME1;
            var num2 := (num1 + m0[num1 % |m|] * PRIME2) % W % PRIME1;
            Iterate(m, num, n + 1) == (m0[num1 % |m| := num2], num2)
  {
    hide Mix;
    hide Iterate;
    IterateStep(m, num, n);
    var (m0, num0) := Iterate(m, num, n);
    var num1 := Mix(num0, m0[num0 % |m|]);
    MixFlat(num0, m0[num0 % |m|]);
    MixFlat(num1, m0[num1 % |m|]);
  }

  lemma IterateStep(m: seq<nat>, num: nat, n: nat)
    requires |m| > 0
    ensures Iterate(m, num, 0) == (m, num)
    ensures var (m0, num0) := Iterate(m, num, n);
            var num1 := Mix(num0, m0[num0 % |m|]);
            var num2 := Mix(num1, m0[num1 % |m|]);
            Iterate(m, num, n + 1) == (m0[num1 % |m| := num2], num2)
  {
    hide Mix;
  }

  method ThreadBody(m: array<nat>, sig: array<nat>, threadId: nat, maxLoop: nat)
    requires m.Length > 0 && threadId < sig.Length && m != sig
    modifies m, sig
    ensures m[..] == Iterate(old(m[..]), old(sig[threadId]), maxLoop).0
    ensures sig[..] == old(sig[..])[threadId := Iterate(old(m[..]), old(sig[threadId]), maxLoop).1]
  {
    for i := 0 to maxLoop
      invariant m[..] == Iterate(old(m[..]), old(sig[threadId]), i).0
      invariant sig[..] == old(sig[..])[threadId := Iterate(old(m[..]), old(sig[threadId]), i).1]
    {
      var num := sig[threadId];
      assert num == sig[..][threadId];
      var index1 := num % m.Length;
      num := Mix(num, m[index1]);
      var index2 := num % m.Length;
      num := Mix(num, m[index2]);
      m[index2] := num;
      sig[threadId] := num;
    }
  }

  lemma {:induction false} IterateMore(m: seq<nat>, num: nat, a: nat, b: nat)
    requires |m| > 0
    ensures Iterate(m, num, a + b) == Iterate(Iterate(m, num, a).0, Iterate(m, num, a).1, b)
  {
    hide Mix;
    if b > 0 {
      IterateMore(m, num, a, b - 1);
      assert a + b - 1 == a + (b - 1);
    }
  }

  /** The inner loop of racey-signal.c and racey-futex.c: `npersig` iterations, or as many as are left. */
  method Batch(m: array<nat>, sig: array<nat>, threadId: nat, start: nat, maxLoop: nat, npersig: nat) returns (i: nat)
    requires m.Length > 0 && threadId < sig.Length && m != sig && start <= maxLoop
    modifies m, sig
    ensures i == if start + npersig <= maxLoop then start + npersig else maxLoop
    ensures m[..] == Iterate(old(m[..]), old(sig[threadId]), i - start).0
    ensures sig[..] == old(sig[..])[threadId := Iterate(old(m[..]), old(sig[threadId]), i - start).1]
  {
    hide Mix;
    i := start;
    var k := 0;
    while k < npersig && i < maxLoop
      invariant k <= npersig && i == start + k <= maxLoop
      invariant m[..] == Iterate(old(m[..]), old(sig[threadId]), k).0
      invariant sig[..] == old(sig[..])[threadId := Iterate(old(m[..]), old(sig[threadId]), k).1]
    {
      var num := sig[threadId];
      assert num == sig[..][threadId];
      var index1 := num % m.Length;
      num := Mix(num, m[index1]);
      var index2 := num % m.Length;
      num := Mix(num, m[index2]);
      m[index2] := num;
      sig[threadId] := num;
      k, i := k + 1, i + 1;
    }
  }

  function Repeat(t: nat, n: nat): (r: seq<nat>)
    ensures |r| == n
  {
    seq(n, _ => t)
  }

  /** ThreadBody is the run of the step machine in which only that thread is scheduled. */
  lemma {:induction false} SoloRun(c: Config, s: State, t: nat, n: nat)
    requires Sized(c, s) && 1 <= t <= c.procs && s.threads[t].pc == Top && s.threads[t].i + n <= c.maxLoop
    ensures Exec(Next(c), s, Repeat(t, 5 * n)).Some?
    ensures var s' := Exec(Next(c), s, Repeat(t, 5 * n)).value;
            && Sized(c, s')
            && s'.m == Iterate(s.m, s.sig[t], n).0
            && s'.sig == s.sig[t := Iterate(s.m, s.sig[t], n).1]
            && s'.threads[t].pc == Top && s'.threads[t].i == s.threads[t].i + n
            && (forall u :: 0 <= u <= c.procs && u != t ==> s'.threads[u] == s.threads[u])
  {
    if n > 0 {
      SoloRun(c, s, t, n - 1);
      var s0 := Exec(Next(c), s, Repeat(t, 5 * (n - 1))).value;
      var s1 := Step(c, s0, t);
      var s2 := Step(c, s1, t);
      var s3 := Step(c, s2, t);
      var s4 := Step(c, s3, t);
      var s5 := Step(c, s4, t);
      Exec5(c, s0, t);
      ExecAppend(Next(c), s, Repeat(t, 5 * (n - 1)), [t, t, t, t, t]);
      assert Repeat(t, 5 * n) == Repeat(t, 5 * (n - 1)) + [t, t, t, t, t];
    }
  }

  lemma Exec5(c: Config, s: State, t: nat)
    requires Sized(c, s) && 1 <= t <= c.procs && s.threads[t].pc == Top && s.threads[t].i < c.maxLoop
    ensures Exec(Next(c), s, [t, t, t, t, t])
         == Some(Step(c, Step(c, Step(c, Step(c, Step(c, s, t), t), t), t), t))
  {
    var s1 := Step(c, s, t);
    var s2 := Step(c, s1, t);
    var s3 := Step(c, s2, t);
    var s4 := Step(c, s3, t);
    ExecOne(Next(c), s4, t);
    ExecCons(Next(c), s3, t, [t]);
    ExecCons(Next(c), s2, t, [t, t]);
    ExecCons(Next(c), s1, t, [t, t, t]);
    ExecCons(Next(c), s, t, [t, t, t, t]);
  }
}
