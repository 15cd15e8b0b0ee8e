/**
 The body of racey-signal.c in the step machine while only its thread is scheduled: iterations,
 batches and the whole loop, with the signals that it sends.
 */
module SignalBody {
  import opened Mixing
  import opened Runs
  import opened Shared
  import opened Signals
  import opened SignalProgram
  import SharedLoop

  // ----- Runs and what they send

  /** The thread that the move sends a signal to, if it sends one. */
  function SentBy(c: Setup, s: State, l: Move): seq<nat>
  {
    if Moves(c, s, l) && l.Run? && s.threads[l.t].handler.None? && s.threads[l.t].pc == Kill
    then [s.sig[l.t] % c.procs + 1] else []
  }

  /** The threads that a run sends signals to, in order. */
  function SendLog(c: Setup, s: State, run: seq<Move>): seq<nat>
    decreases |run|
  {
    if run == [] then []
    else match Next(c)(s, run[0])
      case None => []
      case Some(s1) => SentBy(c, s, run[0]) + SendLog(c, s1, run[1..])
  }

  /** `run` leads from `s` to `s'` and sends the signals in `log`. */
  ghost predicate Goes(c: Setup, s: State, run: seq<Move>, s': State, log: seq<nat>)
  {
    Exec(Next(c), s, run) == Some(s') && SendLog(c, s, run) == log
  }

  lemma GoesNowhere(c: Setup, s: State)
    ensures Goes(c, s, [], s, [])
  {
  }

  lemma GoesOne(c: Setup, s: State, l: Move)
    requires Moves(c, s, l)
    ensures Goes(c, s, [l], Step(c, s, l), SentBy(c, s, l))
  {
    hide Step;
    hide Moves;
    hide SentBy;
    ExecOne(Next(c), s, l);
    assert [l][1..] == [] && SendLog(c, Step(c, s, l), []) == [];
    assert SentBy(c, s, l) + [] == SentBy(c, s, l);
  }

  lemma {:induction false} GoesOn(c: Setup, s: State, a: seq<Move>, s1: State, la: seq<nat>,
                                 b: seq<Move>, s2: State, lb: seq<nat>)
    requires Goes(c, s, a, s1, la) && Goes(c, s1, b, s2, lb)
    ensures Goes(c, s, a + b, s2, la + lb)
    decreases |a|
  {
    hide Step;
    hide Moves;
    hide SentBy;
    if a == [] {
      assert a + b == b && la + lb == lb;
    } else {
      var s0, rest := Next(c)(s, a[0]).value, SendLog(c, Next(c)(s, a[0]).value, a[1..]);
      GoesOn(c, s0, a[1..], s1, rest, b, s2, lb);
      assert (a + b)[1..] == a[1..] + b;
      assert SentBy(c, s, a[0]) + (rest + lb) == SentBy(c, s, a[0]) + rest + lb;
    }
  }

  lemma GoesQuietly(c: Setup, s: State, a: seq<Move>, s1: State, b: seq<Move>, s2: State)
    requires Goes(c, s, a, s1, []) && Goes(c, s1, b, s2, [])
    ensures Goes(c, s, a + b, s2, [])
  {
    hide Goes;
    GoesOn(c, s, a, s1, [], b, s2, []);
    var none: seq<nat> := [];
    assert none + none == [];
  }

  // ----- One iteration

  /** `t`, which no handler interrupts, is at `pc`. */
  predicate BodyAt(c: Setup, s: State, t: nat, pc: Pc)
  {
    Sized(c, s) && IsThread(c, s, t) && t < 33 && s.threads[t].handler.None? && s.threads[t].pc == pc
  }

  lemma BodyMove(c: Setup, s: State, t: nat, pc: Pc)
    requires BodyAt(c, s, t, pc) && pc !in {Held1, Held2, Kill, Done}
    ensures Moves(c, s, Run(t)) && Goes(c, s, [Run(t)], BodyStep(c, s, t), [])
  {
    hide BodyStep;
    hide Goes;
    GoesOne(c, s, Run(t));
  }

  lemma BodyLoads(c: Setup, s: State, t: nat)
    requires BodyAt(c, s, t, Inner) && s.threads[t].k < BatchSize(c.maxLoop) && s.threads[t].i < c.maxLoop
    ensures var num := Mix(s.sig[t], s.m[s.sig[t] % c.elems]);
            var th := s.threads[t].(pc := Write, num := Mix(num, s.m[num % c.elems]), index := num % c.elems);
            Goes(c, s, Times(t, 3), s.(threads := s.threads[t := th]), [])
  {
    hide Goes;
    hide Mix;
    hide BatchSize;
    var s1 := BodyStep(c, s, t);
    var s2 := BodyStep(c, s1, t);
    var s3 := BodyStep(c, s2, t);
    BodyMove(c, s, t, Inner);
    BodyMove(c, s1, t, Read1);
    BodyMove(c, s2, t, Read2);
    GoesQuietly(c, s, [Run(t)], s1, [Run(t)], s2);
    GoesQuietly(c, s, [Run(t)] + [Run(t)], s2, [Run(t)], s3);
    assert Times(t, 3) == [Run(t)] + [Run(t)] + [Run(t)];
    assert s3.threads == s.threads[t := s3.threads[t]];
  }

  lemma BodyStores(c: Setup, s: State, t: nat)
    requires BodyAt(c, s, t, Write)
    ensures var th := s.threads[t];
            var th' := th.(pc := Inner, k := th.k + 1, i := th.i + 1);
            Goes(c, s, Times(t, 2),
                 s.(m := s.m[th.index := th.num], sig := s.sig[t := th.num], threads := s.threads[t := th']), [])
  {
    hide Goes;
    hide Mix;
    hide BatchSize;
    var s1 := BodyStep(c, s, t);
    var s2 := BodyStep(c, s1, t);
    BodyMove(c, s, t, Write);
    BodyMove(c, s1, t, Store);
    GoesQuietly(c, s, [Run(t)], s1, [Run(t)], s2);
    assert Times(t, 2) == [Run(t)] + [Run(t)];
    assert s2.threads == s.threads[t := s2.threads[t]];
  }

  /** Five undisturbed steps are one iteration of the mixing, and send nothing. */
  lemma BodyIteration(c: Setup, s: State, t: nat) returns (s': State)
    requires BodyAt(c, s, t, Inner) && s.threads[t].k < BatchSize(c.maxLoop) && s.threads[t].i < c.maxLoop
    ensures Goes(c, s, Times(t, 5), s', []) && BodyAt(c, s', t, Inner)
    ensures s'.m == SharedLoop.Iterate(s.m, s.sig[t], 1).0
    ensures s'.sig == s.sig[t := SharedLoop.Iterate(s.m, s.sig[t], 1).1]
    ensures var th := s.threads[t];
            var th' := th.(k := th.k + 1, i := th.i + 1, num := s'.threads[t].num, index := s'.threads[t].index);
            s' == s.(m := s'.m, sig := s'.sig, threads := s.threads[t := th'])
  {
    hide Goes;
    hide Mix;
    hide BatchSize;
    var num := Mix(s.sig[t], s.m[s.sig[t] % c.elems]);
    var th := s.threads[t].(pc := Write, num := Mix(num, s.m[num % c.elems]), index := num % c.elems);
    var s1 := s.(threads := s.threads[t := th]);
    BodyLoads(c, s, t);
    BodyStores(c, s1, t);
    var th' := th.(pc := Inner, k := th.k + 1, i := th.i + 1);
    s' := s1.(m := s1.m[th.index := th.num], sig := s1.sig[t := th.num], threads := s1.threads[t := th']);
    GoesQuietly(c, s, Times(t, 3), s1, Times(t, 2), s');
    assert Times(t, 5) == Times(t, 3) + Times(t, 2);
    assert s'.threads == s.threads[t := th'];
    SharedLoop.IterateStep(s.m, s.sig[t], 0);
  }

  // ----- Batches

  /** Since `s`, `t` has made `n` iterations of the mixing and sent signals, and nothing else has happened. */
  ghost predicate Iterated(s: State, s': State, t: nat, n: nat)
    requires |s.m| > 0 && |s.sig| == |s.threads| == 33 && t < 33
  {
    && |s'.threads| == 33
    && s'.m == SharedLoop.Iterate(s.m, s.sig[t], n).0
    && s'.sig == s.sig[t := SharedLoop.Iterate(s.m, s.sig[t], n).1]
    && s'.threads[t].i == s.threads[t].i + n
    && s'.threads[t].handler == s.threads[t].handler && s'.threads[t].runs == s.threads[t].runs
    && s' == s.(m := s'.m, sig := s'.sig, threads := s.threads[t := s'.threads[t]],
                pending := s'.pending, coalesced := s'.coalesced)
  }

  lemma IteratedMore(c: Setup, s: State, s0: State, s': State, t: nat, a: nat, b: nat)
    requires Sized(c, s) && Sized(c, s0) && t < 33 && Iterated(s, s0, t, a) && Iterated(s0, s', t, b)
    ensures Iterated(s, s', t, a + b)
  {
    hide SharedLoop.Iterate;
    SharedLoop.IterateMore(s.m, s.sig[t], a, b);
    assert s.sig[t := s0.sig[t]][t := s'.sig[t]] == s.sig[t := s'.sig[t]];
    assert s.threads[t := s0.threads[t]][t := s'.threads[t]] == s.threads[t := s'.threads[t]];
  }

  lemma {:induction false} BodyBatch(c: Setup, s: State, t: nat, n: nat) returns (s': State)
    requires BodyAt(c, s, t, Inner) && s.threads[t].k + n <= BatchSize(c.maxLoop) && s.threads[t].i + n <= c.maxLoop
    ensures Goes(c, s, Times(t, 5 * n), s', []) && BodyAt(c, s', t, Inner) && Iterated(s, s', t, n)
    ensures s'.threads[t].k == s.threads[t].k + n && s'.threads[t].sends == s.threads[t].sends
    ensures s'.pending == s.pending && s'.coalesced == s.coalesced
  {
    hide Goes;
    hide Mix;
    hide BatchSize;
    if n == 0 {
      s' := s;
      GoesNowhere(c, s);
      assert Times(t, 0) == [];
      assert s.threads == s.threads[t := s.threads[t]] && s.sig == s.sig[t := s.sig[t]];
    } else {
      var s0 := BodyBatch(c, s, t, n - 1);
      s' := BodyIteration(c, s0, t);
      GoesQuietly(c, s, Times(t, 5 * (n - 1)), s0, Times(t, 5), s');
      assert Times(t, 5 * n) == Times(t, 5 * (n - 1)) + Times(t, 5);
      IteratedMore(c, s, s0, s', t, n - 1, 1);
    }
  }

  /** After a batch: the test of the inner loop fails, and one signal is sent. */
  lemma BodySends(c: Setup, s: State, t: nat)
    requires BodyAt(c, s, t, Inner) && (s.threads[t].k >= BatchSize(c.maxLoop) || s.threads[t].i >= c.maxLoop)
    ensures var u, th := s.sig[t] % c.procs + 1, s.threads[t];
            var pc := if th.i < c.maxLoop then Inner else Arrive2;
            var th' := th.(sends := th.sends + 1, k := 0, pc := pc);
            && 1 <= u <= c.procs
            && Goes(c, s, Times(t, 2),
                    s.(pending := s.pending[u := true], coalesced := s.coalesced + if s.pending[u] then 1 else 0,
                       threads := s.threads[t := th']), [u])
  {
    hide Goes;
    hide Mix;
    hide BatchSize;
    var s1 := BodyStep(c, s, t);
    var s2 := BodyStep(c, s1, t);
    BodyMove(c, s, t, Inner);
    GoesOne(c, s1, Run(t));
    var none, u := [], s.sig[t] % c.procs + 1;
    GoesOn(c, s, [Run(t)], s1, none, [Run(t)], s2, [u]);
    assert none + [u] == [u];
    assert Times(t, 2) == [Run(t)] + [Run(t)];
    assert s2.threads == s.threads[t := s2.threads[t]];
  }

  /** A batch that ends with iteration `end` of the loop, and the signal after it. */
  lemma BodyRound(c: Setup, s: State, t: nat, end: nat) returns (s': State)
    requires BodyAt(c, s, t, Inner) && s.threads[t].k == 0 && s.threads[t].i < end <= c.maxLoop
    requires end == s.threads[t].i + BatchSize(c.maxLoop) || (end == c.maxLoop < s.threads[t].i + BatchSize(c.maxLoop))
    ensures |s'.sig| == |s'.pending| == 33
    ensures Goes(c, s, Times(t, 5 * (end - s.threads[t].i) + 2), s', [s'.sig[t] % c.procs + 1])
    ensures Iterated(s, s', t, end - s.threads[t].i) && s'.pending == s.pending[s'.sig[t] % c.procs + 1 := true]
    ensures BodyAt(c, s', t, if end < c.maxLoop then Inner else Arrive2)
    ensures s'.threads[t].k == 0 && s'.threads[t].sends == s.threads[t].sends + 1
  {
    hide Goes;
    hide Mix;
    hide BatchSize;
    hide SharedLoop.Iterate;
    var n := end - s.threads[t].i;
    var s1 := BodyBatch(c, s, t, n);
    BodySends(c, s1, t);
    var u, th := s1.sig[t] % c.procs + 1, s1.threads[t];
    var th' := th.(sends := th.sends + 1, k := 0, pc := if th.i < c.maxLoop then Inner else Arrive2);
    s' := s1.(pending := s1.pending[u := true], coalesced := s1.coalesced + if s1.pending[u] then 1 else 0,
              threads := s1.threads[t := th']);
    var none := [];
    GoesOn(c, s, Times(t, 5 * n), s1, none, Times(t, 2), s', [u]);
    assert none + [u] == [u];
    assert Times(t, 5 * n + 2) == Times(t, 5 * n) + Times(t, 2);
    assert s'.threads == s.threads[t := s'.threads[t]];
  }

  /** Signal `k` of a body that starts from `m` and `num` goes where ThreadBody sends it. */
  ghost predicate SendsAsLoop(c: Setup, m: seq<nat>, num: nat, log: seq<nat>)
    requires |m| > 0
  {
    forall k :: 0 <= k < |log| ==> log[k] == SendTarget(c.procs, m, num, AtSend(c.maxLoop, k))
  }

  /** The signals in `log` became pending. */
  ghost predicate Signalled(s: State, s': State, log: seq<nat>)
  {
    && |s.pending| == |s'.pending| == 33
    && forall u :: 0 <= u < 33 ==> (s'.pending[u] <==> s.pending[u] || u in log)
  }

  /** The first `b` batches. */
  lemma {:induction false} BodyBatches(c: Setup, s: State, t: nat, b: nat) returns (s': State, log: seq<nat>)
    requires BodyAt(c, s, t, Inner) && s.threads[t].k == s.threads[t].i == 0
    requires b >= 1 && (b - 1) * BatchSize(c.maxLoop) < c.maxLoop
    ensures var end := AtSend(c.maxLoop, b - 1);
            && Goes(c, s, Times(t, 5 * end + 2 * b), s', log)
            && Iterated(s, s', t, end) && BodyAt(c, s', t, if end < c.maxLoop then Inner else Arrive2)
    ensures |log| == b && SendsAsLoop(c, s.m, s.sig[t], log) && Signalled(s, s', log)
    ensures s'.threads[t].k == 0 && s'.threads[t].sends == s.threads[t].sends + b
    decreases b
  {
    hide Goes;
    hide BatchSize;
    hide SharedLoop.Iterate;
    var n, end := BatchSize(c.maxLoop), AtSend(c.maxLoop, b - 1);
    if b == 1 {
      s' := BodyRound(c, s, t, end);
      log := [s'.sig[t] % c.procs + 1];
    } else {
      assert (b - 2) * n + n == (b - 1) * n && (b - 1) * n + n == b * n;
      var s0, log0 := BodyBatches(c, s, t, b - 1);
      var start := AtSend(c.maxLoop, b - 2);
      s' := BodyRound(c, s0, t, end);
      var u := s'.sig[t] % c.procs + 1;
      log := log0 + [u];
      GoesOn(c, s, Times(t, 5 * start + 2 * (b - 1)), s0, log0, Times(t, 5 * (end - start) + 2), s', [u]);
      assert Times(t, 5 * end + 2 * b) == Times(t, 5 * start + 2 * (b - 1)) + Times(t, 5 * (end - start) + 2);
      IteratedMore(c, s, s0, s', t, start, end - start);
    }
  }

  /**
   The run that schedules only the body of `t`, from the loop to the second barrier, does what
   ThreadBody does: the same m[] and sig[], and the same signals to the same threads.
   */
  lemma BodyRun(c: Setup, s: State, t: nat) returns (s': State, log: seq<nat>)
    requires BodyAt(c, s, t, Inner) && s.threads[t].k == s.threads[t].i == 0
    ensures var run := Times(t, 5 * c.maxLoop + 2 * |log|);
            Exec(Next(c), s, run) == Some(s') && SendLog(c, s, run) == log && BodyAt(c, s', t, Arrive2)
    ensures s'.m == SharedLoop.Iterate(s.m, s.sig[t], c.maxLoop).0
    ensures s'.sig == s.sig[t := SharedLoop.Iterate(s.m, s.sig[t], c.maxLoop).1] && s'.sig2 == s.sig2
    ensures (|log| - 1) * BatchSize(c.maxLoop) < c.maxLoop <= |log| * BatchSize(c.maxLoop)
    ensures forall k :: 0 <= k < |log| ==> log[k] == SendTarget(c.procs, s.m, s.sig[t], AtSend(c.maxLoop, k))
    ensures Signalled(s, s', log) && s'.threads[t].sends == s.threads[t].sends + |log|
    ensures forall u :: 0 <= u < 33 && u != t ==> s'.threads[u] == s.threads[u]
  {
    hide SharedLoop.Iterate;
    hide BatchSize;
    hide Exec;
    hide SendLog;
    var b := BatchCount(c.maxLoop, BatchSize(c.maxLoop));
    s', log := BodyBatches(c, s, t, b);
    assert AtSend(c.maxLoop, b - 1) == c.maxLoop;
    hide AtSend;
    hide SendTarget;
  }

  lemma BatchCount(maxLoop: nat, n: nat) returns (b: nat)
    requires maxLoop >= 1 && n >= 1
    ensures b >= 1 && (b - 1) * n < maxLoop <= b * n && (b - 1 + 1) * n == b * n
  {
    b := (maxLoop - 1) / n + 1;
    assert maxLoop - 1 == (b - 1) * n + (maxLoop - 1) % n;
    assert (b - 1) * n + n == b * n;
  }
}
