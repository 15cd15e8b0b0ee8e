/**
 The functions of racey-signal.c over their arrays, as one thread executes them while it is not
 disturbed, and how they appear as runs of the step machine.
 */
module SignalProgram {
  import opened Mixing
  import opened Runs
  import opened Shared
  import opened Signals
  import SharedLoop

  /** Where iteration `n` of a thread that started from `m` and `num` sends its signal. */
  function SendTarget(procs: nat, m: seq<nat>, num: nat, n: nat): (u: nat)
    requires procs >= 1 && |m| > 0
    ensures 1 <= u <= procs
  {
    SharedLoop.Iterate(m, num, n).1 % procs + 1
  }

  /** How many iterations have been made when signal `k` is sent. */
  function AtSend(maxLoop: nat, k: nat): nat
  {
    if (k + 1) * BatchSize(maxLoop) <= maxLoop then (k + 1) * BatchSize(maxLoop) else maxLoop
  }

  /** mix_sig after sig2[1], ..., sig2[n-1] have been folded into `start`. */
  function FoldIn(start: nat, sig2: seq<nat>, n: nat): nat
    requires 1 <= n <= |sig2|
  {
    if n == 1 then start else Mix(sig2[n-1], FoldIn(start, sig2, n - 1))
  }

  class Program {
    const c: Setup
    const m: array<nat>
    const sig: array<nat>
    const sig2: array<nat>

    ghost predicate Valid()
    {
      && m.Length == c.elems && sig.Length == sig2.Length == 33
      && m != sig && m != sig2 && sig != sig2
    }

    constructor (c: Setup, beyond: nat)
      ensures Valid() && fresh(m) && fresh(sig) && fresh(sig2) && this.c == c
      ensures m[..] == Init(c, beyond).m && sig[..] == Init(c, beyond).sig && sig2[..] == Init(c, beyond).sig2
    {
      this.c := c;
      m := new nat[c.elems];
      sig := new nat[33](t => t);
      sig2 := new nat[33](_ => 0);
      new;
      InitElements(m);
      for i := 0 to 33
        invariant m[..] == InitialElements(c.elems) && sig[..] == InitialSig(32)
        invariant forall k :: 0 <= k < i ==> sig2[k] == if k == 0 then beyond else 33 - k
      {
        sig2[i] := if i == 0 then beyond else sig[33 - i];
      }
    }

    /** The handler works on sig2[] as the body works on sig[]. */
    method ThreadSignalHandler(threadId: nat)
      requires Valid() && threadId < 33
      modifies m, sig2
      ensures m[..] == SharedLoop.Iterate(old(m[..]), old(sig2[threadId]), 100).0
      ensures sig2[..] == old(sig2[..])[threadId := SharedLoop.Iterate(old(m[..]), old(sig2[threadId]), 100).1]
    {
      var i := SharedLoop.Batch(m, sig2, threadId, 0, HANDLER_LOOPS, HANDLER_LOOPS);
    }

    /** `log` lists the threads that pthread_kill() is called for. */
    method ThreadBody(threadId: nat) returns (log: seq<nat>)
      requires Valid() && 1 <= threadId <= c.procs
      modifies m, sig
      ensures m[..] == SharedLoop.Iterate(old(m[..]), old(sig[threadId]), c.maxLoop).0
      ensures sig[..]
           == old(sig[..])[threadId := SharedLoop.Iterate(old(m[..]), old(sig[threadId]), c.maxLoop).1]
      ensures (|log| - 1) * BatchSize(c.maxLoop) < c.maxLoop <= |log| * BatchSize(c.maxLoop)
      ensures forall k :: 0 <= k < |log| ==>
                log[k] == SendTarget(c.procs, old(m[..]), old(sig[threadId]), AtSend(c.maxLoop, k))
    {
      hide SharedLoop.Iterate;
      var npersig := BatchSize(c.maxLoop);
      hide BatchSize;
      log := [];
      var i := 0;
      IterateNothing(m[..], sig[threadId]);
      while i < c.maxLoop
        invariant i <= c.maxLoop && |log| * npersig >= i
        invariant i < c.maxLoop ==> i == |log| * npersig
        invariant i == c.maxLoop ==> (|log| - 1) * npersig < c.maxLoop
        invariant m[..] == SharedLoop.Iterate(old(m[..]), old(sig[threadId]), i).0
        invariant sig[..] == old(sig[..])[threadId := SharedLoop.Iterate(old(m[..]), old(sig[threadId]), i).1]
        invariant forall k :: 0 <= k < |log| ==>
                    log[k] == SendTarget(c.procs, old(m[..]), old(sig[threadId]), AtSend(c.maxLoop, k))
      {
        assert sig[threadId] == sig[..][threadId];
        var next := SharedLoop.Batch(m, sig, threadId, i, c.maxLoop, npersig);
        SharedLoop.IterateMore(old(m[..]), old(sig[threadId]), i, next - i);
        assert (|log| + 1) * npersig == |log| * npersig + npersig;
        assert next == AtSend(c.maxLoop, |log|);
        assert sig[threadId] == sig[..][threadId];
        log := log + [sig[threadId] % c.procs + 1];
        i := next;
      }
    }

    /** main's result: sig[] is folded in and then sig2[]; `v` and `w` are the values of mix_sig on the way. */
    method ComputeResult() returns (mixSig: nat, ghost v: seq<nat>, ghost w: seq<nat>)
      requires Valid()
      ensures mixSig == FoldIn(Signature(sig[..], c.procs), sig2[..], c.procs)
      ensures |v| == |w| == c.procs && v[0] == sig[0] && w[0] == v[c.procs - 1] && mixSig == w[c.procs - 1]
      ensures forall i {:trigger sig[i]} :: 1 <= i < c.procs ==> v[i] == (sig[i] + v[i - 1] * PRIME2) % W % PRIME1
      ensures forall i {:trigger sig2[i]} :: 1 <= i < c.procs ==> w[i] == (sig2[i] + w[i - 1] * PRIME2) % W % PRIME1
    {
      mixSig, v := Shared.ComputeResult(sig, c.procs);
      w := [mixSig];
      for i := 1 to c.procs
        invariant mixSig == FoldIn(Signature(sig[..], c.procs), sig2[..], i)
        invariant |w| == i && w[0] == v[c.procs - 1] && w[i - 1] == mixSig
        invariant forall k {:trigger sig2[k]} :: 1 <= k < i ==> w[k] == (sig2[k] + w[k - 1] * PRIME2) % W % PRIME1
      {
        MixFlat(sig2[i], mixSig);
        mixSig := Mix(sig2[i], mixSig);
        w := w + [mixSig];
        hide Mix;
      }
    }
  }

  lemma IterateNothing(m: seq<nat>, num: nat)
    requires |m| > 0
    ensures SharedLoop.Iterate(m, num, 0) == (m, num)
  {
  }

  // ----- The handler as a run of the step machine

  function Times(t: nat, n: nat): (r: seq<Move>)
    ensures |r| == n
  {
    seq(n, _ => Run(t))
  }

  /** `t` is about to begin iteration `j` of its handler. */
  predicate AtTop(c: Setup, s: State, t: nat, j: nat)
  {
    && Sized(c, s) && IsThread(c, s, t) && t < 33
    && s.threads[t].handler.Some? && s.threads[t].handler.value.pc == HTop && s.threads[t].handler.value.j == j
  }

  lemma HandlerRead(c: Setup, s: State, t: nat, j: nat)
    requires AtTop(c, s, t, j) && j < HANDLER_LOOPS
    ensures var num := Mix(s.sig2[t], s.m[s.sig2[t] % c.elems]);
            var th := s.threads[t].(handler := Some(Handler(HRead2, j, num, num % c.elems)));
            Exec(Next(c), s, Times(t, 2)) == Some(s.(threads := s.threads[t := th]))
  {
    hide Exec;
    hide BodyStep;
    hide Mix;
    var s1 := HandlerStep(c, s, t);
    assert Times(t, 2) == [Run(t)] + [Run(t)];
    ExecOne(Next(c), s1, Run(t));
    ExecCons(Next(c), s, Run(t), [Run(t)]);
    var num := Mix(s.sig2[t], s.m[s.sig2[t] % c.elems]);
    assert HandlerStep(c, s1, t).threads
        == s.threads[t := s.threads[t].(handler := Some(Handler(HRead2, j, num, num % c.elems)))];
  }

  lemma HandlerWrite(c: Setup, s: State, t: nat, h: Handler)
    requires Sized(c, s) && IsThread(c, s, t) && t < 33 && s.threads[t].handler == Some(h) && h.pc == HRead2
    ensures var num := Mix(h.num, s.m[h.index]);
            var th := s.threads[t].(handler := Some(Handler(HTop, h.j + 1, num, h.index)));
            Exec(Next(c), s, Times(t, 3)) ==
              Some(s.(m := s.m[h.index := num], sig2 := s.sig2[t := num], threads := s.threads[t := th]))
  {
    hide Exec;
    hide BodyStep;
    hide Mix;
    var s1 := HandlerStep(c, s, t);
    var s2 := HandlerStep(c, s1, t);
    assert Times(t, 3) == [Run(t)] + ([Run(t)] + [Run(t)]);
    ExecOne(Next(c), s2, Run(t));
    ExecCons(Next(c), s1, Run(t), [Run(t)]);
    ExecCons(Next(c), s, Run(t), [Run(t)] + [Run(t)]);
    var num := Mix(h.num, s.m[h.index]);
    assert HandlerStep(c, s2, t).threads
        == s.threads[t := s.threads[t].(handler := Some(Handler(HTop, h.j + 1, num, h.index)))];
  }

  lemma {:induction false} HandlerIterations(c: Setup, s: State, t: nat, n: nat) returns (s': State)
    requires AtTop(c, s, t, 0) && n <= HANDLER_LOOPS
    ensures Exec(Next(c), s, Times(t, 5 * n)) == Some(s') && AtTop(c, s', t, n)
    ensures s'.m == SharedLoop.Iterate(s.m, s.sig2[t], n).0
    ensures s'.sig2 == s.sig2[t := SharedLoop.Iterate(s.m, s.sig2[t], n).1]
    ensures s' == s.(m := s'.m, sig2 := s'.sig2, threads := s.threads[t := s.threads[t].(handler := s'.threads[t].handler)])
  {
    hide Mix;
    if n == 0 {
      s' := s;
      assert s.threads == s.threads[t := s.threads[t]];
    } else {
      var s0 := HandlerIterations(c, s, t, n - 1);
      s' := OneMore(c, s, s0, t, n - 1);
    }
  }

  lemma OneMore(c: Setup, s: State, s0: State, t: nat, j: nat) returns (s': State)
    requires Sized(c, s) && t < 33 && j < HANDLER_LOOPS
    requires Exec(Next(c), s, Times(t, 5 * j)) == Some(s0) && AtTop(c, s0, t, j)
    requires s0.m == SharedLoop.Iterate(s.m, s.sig2[t], j).0
    requires s0.sig2 == s.sig2[t := SharedLoop.Iterate(s.m, s.sig2[t], j).1]
    requires s0 == s.(m := s0.m, sig2 := s0.sig2, threads := s.threads[t := s.threads[t].(handler := s0.threads[t].handler)])
    ensures Exec(Next(c), s, Times(t, 5 * (j + 1))) == Some(s') && AtTop(c, s', t, j + 1)
    ensures s'.m == SharedLoop.Iterate(s.m, s.sig2[t], j + 1).0
    ensures s'.sig2 == s.sig2[t := SharedLoop.Iterate(s.m, s.sig2[t], j + 1).1]
    ensures s' == s.(m := s'.m, sig2 := s'.sig2, threads := s.threads[t := s.threads[t].(handler := s'.threads[t].handler)])
  {
    hide Mix;
    hide Exec;
    HandlerRead(c, s0, t, j);
    var s1 := Exec(Next(c), s0, Times(t, 2)).value;
    HandlerWrite(c, s1, t, s1.threads[t].handler.value);
    s' := Exec(Next(c), s1, Times(t, 3)).value;
    ExecAppend(Next(c), s0, Times(t, 2), Times(t, 3));
    ExecAppend(Next(c), s, Times(t, 5 * j), Times(t, 2) + Times(t, 3));
    assert Times(t, 5 * (j + 1)) == Times(t, 5 * j) + (Times(t, 2) + Times(t, 3));
    assert s'.threads == s.threads[t := s.threads[t].(handler := s'.threads[t].handler)];
  }

  lemma HandlerRun(c: Setup, s: State, t: nat)
    requires AtTop(c, s, t, 0)
    ensures var (m, num) := SharedLoop.Iterate(s.m, s.sig2[t], 100);
            var threads := s.threads[t := s.threads[t].(handler := None)];
            Exec(Next(c), s, Times(t, 501)) ==
              Some(s.(m := m, sig2 := s.sig2[t := num], threads := threads))
  {
    hide SharedLoop.Iterate;
    var s1 := HandlerIterations(c, s, t, HANDLER_LOOPS);
    ExecOne(Next(c), s1, Run(t));
    ExecAppend(Next(c), s, Times(t, 5 * HANDLER_LOOPS), [Run(t)]);
    assert Times(t, 5 * HANDLER_LOOPS + 1) == Times(t, 5 * HANDLER_LOOPS) + [Run(t)];
    assert HandlerStep(c, s1, t).threads == s.threads[t := s.threads[t].(handler := None)];
  }

  /**
   Delivery of a signal, followed by the activation of the handler during which only its thread runs,
   does what ThreadSignalHandler does, and the thread goes on where it was interrupted.
   */
  lemma HandlerActivation(c: Setup, s: State, t: nat)
    requires Moves(c, s, Deliver(t))
    ensures var (m, num) := SharedLoop.Iterate(s.m, s.sig2[t], 100);
            var threads := s.threads[t := s.threads[t].(runs := s.threads[t].runs + 1)];
            Exec(Next(c), s, [Deliver(t)] + Times(t, 501)) ==
              Some(s.(m := m, sig2 := s.sig2[t := num], pending := s.pending[t := false], threads := threads))
  {
    hide SharedLoop.Iterate;
    hide Exec;
    hide HandlerStep;
    hide BodyStep;
    var s1 := Step(c, s, Deliver(t));
    HandlerRun(c, s1, t);
    ExecCons(Next(c), s, Deliver(t), Times(t, 501));
    assert s1.threads[t := s1.threads[t].(handler := None)]
        == s.threads[t := s.threads[t].(runs := s.threads[t].runs + 1)];
  }
}
