/**
 What main sets up before it creates the threads, and what it computes after joining them.
 */
module Shared {
  import opened Mixing

  datatype RawConfig = Config(procs: nat, maxLoop: nat, elems: nat, locks: nat)

  /** NumProcs, MaxLoop, MAX_ELEM and NLOCK. */
  type Config = c: RawConfig | c.procs >= 1 && c.maxLoop >= 1 && c.elems >= 1 && c.locks >= 1
    witness Config(1, 1, 1, 1)

  datatype RawSetup = Setup(procs: nat, maxLoop: nat, elems: nat)

  /** NumProcs, MaxLoop and MAX_ELEM, for the programs whose arrays have 33 entries. */
  type Setup = c: RawSetup | 1 <= c.procs <= 32 && c.maxLoop >= 1 && c.elems >= 1 witness Setup(1, 1, 1)

  function InitialElements(elems: nat): seq<nat> { seq(elems, k => Mix(k, k)) }

  /** npersig: how many iterations make up one batch. */
  function BatchSize(maxLoop: nat): (n: nat)
    ensures n >= 1
    ensures maxLoop >= 1000 ==> n * 1000 <= maxLoop < (n + 1) * 1000
    ensures 100 <= maxLoop < 1000 ==> n * 100 <= maxLoop < (n + 1) * 100
    ensures maxLoop < 100 ==> n == 1
  {
    if maxLoop >= 1000 then maxLoop / 1000 else if maxLoop >= 100 then maxLoop / 100 else 1
  }

  /** sig[t] == t; workers are numbered 1..procs. */
  function InitialSig(procs: nat): seq<nat> { seq(procs + 1, t => t) }

  method InitElements(m: array<nat>)
    modifies m
    ensures m[..] == InitialElements(m.Length)
    ensures forall k :: 0 <= k < m.Length ==> m[k] == (k + k * PRIME2) % W % PRIME1
  {
    InitialIsFlat(m.Length);
    hide Mix;
    for i := 0 to m.Length
      invariant m[..i] == InitialElements(i)
    {
      m[i] := Mix(i, i);
      assert m[..i + 1] == m[..i] + [m[i]];
    }
    assert m[..] == m[..m.Length];
    assert forall k :: 0 <= k < m.Length ==> m[k] == m[..][k];
  }

  lemma InitialIsFlat(elems: nat)
    ensures forall k :: 0 <= k < elems ==> InitialElements(elems)[k] == (k + k * PRIME2) % W % PRIME1
  {
    forall k | 0 <= k < elems
      ensures InitialElements(elems)[k] == (k + k * PRIME2) % W % PRIME1
    {
      MixFlat(k, k);
      hide Mix;
    }
  }

  /** mix_sig of main: starts from sig[0] and folds in sig[1], ..., sig[n-1]. */
  function Signature(sig: seq<nat>, n: nat): nat
    requires 1 <= n <= |sig|
  {
    if n == 1 then sig[0] else Mix(sig[n-1], Signature(sig, n - 1))
  }

  /** The values that mix_sig takes one after the other, in plain arithmetic. */
  lemma {:induction false} SignatureIsFlat(sig: seq<nat>, n: nat) returns (v: seq<nat>)
    requires 1 <= n <= |sig|
    ensures |v| == n && v[0] == sig[0]
    ensures forall i :: 1 <= i < n ==> v[i] == (sig[i] + v[i - 1] * PRIME2) % W % PRIME1
    ensures v[n - 1] == Signature(sig, n)
  {
    if n == 1 {
      v := [sig[0]];
    } else {
      var front := SignatureIsFlat(sig, n - 1);
      v := front + [Signature(sig, n)];
      MixFlat(sig[n - 1], Signature(sig, n - 1));
      hide Mix;
    }
  }

  method ComputeResult(sig: array<nat>, procs: nat) returns (mixSig: nat, ghost v: seq<nat>)
    requires 1 <= procs <= sig.Length
    ensures mixSig == Signature(sig[..], procs)
    ensures |v| == procs && v[0] == sig[0] && v[procs - 1] == mixSig
    ensures forall i :: 1 <= i < procs ==> v[i] == (sig[i] + v[i - 1] * PRIME2) % W % PRIME1
  {
    mixSig := sig[0];
    for i := 1 to procs
      invariant mixSig == Signature(sig[..], i)
    {
      mixSig := Mix(sig[i], mixSig);
    }
    v := SignatureIsFlat(sig[..], procs);
  }

  /** The last worker has index `n`, which the fold never reads. */
  lemma {:induction false} SignatureIgnoresLastWorker(sig: seq<nat>, sig': seq<nat>, n: nat)
    requires 1 <= n < |sig| == |sig'|
    requires forall k :: 0 <= k < n ==> sig[k] == sig'[k]
    ensures Signature(sig, n) == Signature(sig', n)
  {
    if n > 1 {
      SignatureIgnoresLastWorker(sig, sig', n - 1);
    }
  }
}
