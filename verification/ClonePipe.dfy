/**
 racey-clonepipe.c: the pipe network run by threads.  All threads share one descriptor table, so
 a pipe has a single write end, which main closes after it has joined every writer.
 */
module ClonePipe {
  import opened Mixing
  import opened Runs
  import opened Simulation
  import opened Messages
  import opened PipeWorkers
  import opened Sums
  import N = PipeNet
  import PipeMeasure

  datatype Thread = Unborn | Loop | Output | Ended

  /** The argument is what main creates, joins, closes or reads next. */
  datatype Main =
    | Spawning(next: nat)
    | JoinWriters(w: nat)
    | Closing(i: nat)
    | JoinReaders(t: nat)
    | Collect(i: nat, sig: nat)
    | Finished(sig: nat)

  /** Label 0 is main; thread 2t-1 is reader t and thread 2t is writer t. */
  datatype State = State(net: N.Net, main: Main, threads: seq<Thread>, writeOpen: seq<bool>, outs: seq<Bytes>)

  function Init(c: N.Config): State
  {
    State(N.Init(c), Spawning(1), seq(2 * c.procs + 1, _ => Unborn),
          seq(c.procs + 1, _ => true), seq(c.procs + 1, _ => []))
  }

  predicate Sized(c: N.Config, s: State)
  {
    && N.Sized(c, s.net) && |s.threads| == 2 * c.procs + 1
    && |s.writeOpen| == |s.outs| == c.procs + 1
  }

  predicate MainMoves(c: N.Config, s: State)
    requires Sized(c, s)
  {
    match s.main
    case Spawning(k) => 1 <= k <= 2 * c.procs
    case JoinWriters(w) => w > c.procs || s.threads[2 * w] == Ended
    case Closing(i) => true
    case JoinReaders(t) => t > c.procs || (t > 0 && s.threads[2 * t - 1] == Ended)
    case Collect(i, _) => i >= c.procs || |s.outs[i]| >= WORD_SIZE
    case Finished(_) => false
  }

  function MainStep(c: N.Config, s: State): State
    requires Sized(c, s) && MainMoves(c, s)
  {
    match s.main
    case Spawning(k) =>
      s.(threads := s.threads[k := Loop], main := if k == 2 * c.procs then JoinWriters(1) else Spawning(k + 1))
    case JoinWriters(w) =>
      s.(main := if w > c.procs then Closing(1) else JoinWriters(w + 1))
    case Closing(i) =>
      if i > c.procs then s.(main := JoinReaders(1))
      else s.(writeOpen := s.writeOpen[i := false], main := Closing(i + 1))
    case JoinReaders(t) =>
      s.(main := if t > c.procs then Collect(1, 0) else JoinReaders(t + 1))
    case Collect(i, sig) =>
      if i >= c.procs then s.(main := Finished(sig))
      else
        var num := DecodeWord(s.outs[i][..WORD_SIZE]);
        s.(outs := s.outs[i := s.outs[i][WORD_SIZE..]],
           main := Collect(i + 1, Mix(WORD_SIZE, Mix(num, sig))))
  }

  predicate ThreadMoves(c: N.Config, s: State, p: nat)
    requires Sized(c, s) && 1 <= p <= 2 * c.procs
  {
    var t := Id(p);
    match s.threads[p]
    case Loop =>
      if IsReader(p) then N.CanRead(c, s.net, t) || (N.Drained(c, s.net, t) && !s.writeOpen[t])
      else N.Finished(c, s.net, t) || N.CanWrite(c, s.net, t)
    case Output => |s.outs[t]| + WORD_SIZE <= c.capacity
    case _ => false
  }

  function ThreadStep(c: N.Config, s: State, p: nat): State
    requires Sized(c, s) && 1 <= p <= 2 * c.procs && ThreadMoves(c, s, p)
  {
    var t := Id(p);
    match s.threads[p]
    case Loop =>
      if IsReader(p) then
        if N.CanRead(c, s.net, t) then s.(net := N.DoRead(c, s.net, t))
        else s.(net := N.DoEof(c, s.net, t), threads := s.threads[p := Output])
      else if N.Finished(c, s.net, t) then s.(threads := s.threads[p := Ended])
      else s.(net := N.DoWrite(c, s.net, t))
    case Output =>
      s.(outs := s.outs[t := s.outs[t] + EncodeWord(U32(s.net.readers[t].num))],
         threads := s.threads[p := Ended])
  }

  predicate Moves(c: N.Config, s: State, p: nat)
  {
    && Sized(c, s) && p <= 2 * c.procs
    && if p == 0 then MainMoves(c, s) else ThreadMoves(c, s, p)
  }

  function Step(c: N.Config, s: State, p: nat): State
    requires Moves(c, s, p)
  {
    if p == 0 then MainStep(c, s) else ThreadStep(c, s, p)
  }

  function Next(c: N.Config): (State, nat) -> Option<State>
  {
    (s: State, p: nat) => if Moves(c, s, p) then Some(Step(c, s, p)) else None
  }

  /** The step of the abstract network that a step performs, if any. */
  function Acts(c: N.Config, s: State, p: nat): seq<N.Act>
    requires Moves(c, s, p)
  {
    if p == 0 || s.threads[p] != Loop then []
    else if IsReader(p) then [N.Read(Id(p))]
    else if N.Finished(c, s.net, Id(p)) then []
    else [N.Write(Id(p))]
  }

  // ----- What every step keeps

  ghost predicate ThreadInv(c: N.Config, s: State, p: nat)
    requires Sized(c, s) && 1 <= p <= 2 * c.procs
  {
    var th, t := s.threads[p], Id(p);
    && (th.Unborn? <==> s.main.Spawning? && s.main.next <= p)
    && (IsReader(p) ==> (s.net.readers[t].eof <==> th.Output? || th.Ended?))
    && (!IsReader(p) ==> !th.Output? && (th.Ended? ==> N.Finished(c, s.net, t)))
  }

  predicate WriterEnded(c: N.Config, s: State, n: nat)
    requires Sized(c, s) && n <= c.procs
  {
    forall w :: 1 <= w <= n ==> s.threads[2 * w] == Ended
  }

  predicate ReaderEnded(c: N.Config, s: State, n: nat)
    requires Sized(c, s) && n <= c.procs
  {
    forall t :: 1 <= t <= n ==> s.threads[2 * t - 1] == Ended
  }

  ghost predicate MainInv(c: N.Config, s: State)
    requires Sized(c, s)
  {
    match s.main
    case Spawning(k) => 1 <= k <= 2 * c.procs
    case JoinWriters(w) => 1 <= w <= c.procs + 1 && WriterEnded(c, s, w - 1)
    case Closing(i) => 1 <= i <= c.procs + 1 && WriterEnded(c, s, c.procs)
    case JoinReaders(t) => 1 <= t <= c.procs + 1 && WriterEnded(c, s, c.procs) && ReaderEnded(c, s, t - 1)
    case Collect(i, sig) =>
      && 1 <= i <= c.procs && WriterEnded(c, s, c.procs) && ReaderEnded(c, s, c.procs)
      && sig == N.Signature(s.net, i)
    case Finished(sig) =>
      && WriterEnded(c, s, c.procs) && ReaderEnded(c, s, c.procs)
      && sig == N.Signature(s.net, c.procs)
  }

  predicate Collected(c: N.Config, s: State, t: nat)
  {
    (s.main.Collect? && t < s.main.i) || (s.main.Finished? && t < c.procs)
  }

  ghost predicate PipeInv(c: N.Config, s: State, t: nat)
    requires Sized(c, s) && 1 <= t <= c.procs
  {
    && (s.writeOpen[t] <==> s.main.Spawning? || s.main.JoinWriters? || (s.main.Closing? && s.main.i <= t))
    && s.outs[t] == if s.threads[2 * t - 1] == Ended && !Collected(c, s, t)
                    then EncodeWord(U32(s.net.readers[t].num)) else []
  }

  ghost predicate Inv(c: N.Config, s: State)
  {
    && Sized(c, s) && N.Inv(c, s.net) && MainInv(c, s)
    && (forall p :: 1 <= p <= 2 * c.procs ==> ThreadInv(c, s, p))
    && (forall t :: 1 <= t <= c.procs ==> PipeInv(c, s, t))
  }

  lemma InitInv(c: N.Config)
    ensures Inv(c, Init(c))
  {
    hide N.Inv;
    N.InitInv(c);
    assert forall p :: 1 <= p <= 2 * c.procs ==> ThreadInv(c, Init(c), p);
    assert forall t :: 1 <= t <= c.procs ==> PipeInv(c, Init(c), t);
  }

  /** Writers that have been joined have written everything. */
  lemma ClosedMeansFinished(c: N.Config, s: State, j: nat)
    requires Inv(c, s) && 1 <= j <= c.procs && !s.writeOpen[j]
    ensures N.AllFinished(c, s.net)
  {
    hide N.Inv;
    assert PipeInv(c, s, j);
    forall w | 1 <= w <= c.procs
      ensures N.Finished(c, s.net, w)
    {
      assert ThreadInv(c, s, 2 * w) && s.threads[2 * w] == Ended && Id(2 * w) == w && !IsReader(2 * w);
    }
  }

  /** What main reads back is the number that the reader ended with. */
  lemma CollectedWord(c: N.Config, s: State)
    requires Inv(c, s) && s.main.Collect? && s.main.i < c.procs
    ensures var i := s.main.i;
            |s.outs[i]| == WORD_SIZE && DecodeWord(s.outs[i][..WORD_SIZE]) == s.net.readers[i].num
  {
    hide N.Inv;
    var i := s.main.i;
    assert s.net.readers[i].eof by {
      assert ThreadInv(c, s, 2 * i - 1) && IsReader(2 * i - 1) && Id(2 * i - 1) == i;
    }
    N.EofNumIsSmall(c, s.net, i);
    assert PipeInv(c, s, i);
    NumRoundTrip(s.net.readers[i].num, s.outs[i]);
  }

  lemma MainKeepsThread(c: N.Config, s: State, p: nat)
    requires Sized(c, s) && MainMoves(c, s) && 1 <= p <= 2 * c.procs && ThreadInv(c, s, p)
    ensures ThreadInv(c, MainStep(c, s), p)
  {
    hide Mix;
  }

  lemma MainKeepsPipe(c: N.Config, s: State, t: nat)
    requires Sized(c, s) && MainMoves(c, s) && MainInv(c, s) && 1 <= t <= c.procs && PipeInv(c, s, t)
    requires ThreadInv(c, s, 2 * t - 1)
    requires s.main.Collect? && s.main.i < c.procs ==> |s.outs[s.main.i]| == WORD_SIZE
    ensures PipeInv(c, MainStep(c, s), t)
  {
    hide EncodeWord;
    hide Mix;
  }

  lemma MainKeepsMain(c: N.Config, s: State)
    requires Sized(c, s) && MainMoves(c, s) && MainInv(c, s)
    requires s.main.Collect? && s.main.i < c.procs ==>
               DecodeWord(s.outs[s.main.i][..WORD_SIZE]) == s.net.readers[s.main.i].num
    ensures MainInv(c, MainStep(c, s))
  {
    hide Mix;
  }

  lemma MainStepKeepsInv(c: N.Config, s: State)
    requires Inv(c, s) && MainMoves(c, s)
    ensures Inv(c, MainStep(c, s)) && MainStep(c, s).net == s.net
  {
    hide N.Inv;
    hide MainInv;
    hide ThreadInv;
    hide PipeInv;
    if s.main.Collect? && s.main.i < c.procs {
      CollectedWord(c, s);
    }
    MainKeepsMain(c, s);
    forall p | 1 <= p <= 2 * c.procs
      ensures ThreadInv(c, MainStep(c, s), p)
    {
      MainKeepsThread(c, s, p);
    }
    forall t | 1 <= t <= c.procs
      ensures PipeInv(c, MainStep(c, s), t)
    {
      MainKeepsPipe(c, s, t);
    }
  }

  lemma ThreadNet(c: N.Config, s: State, p: nat)
    requires Inv(c, s) && p != 0 && Moves(c, s, p)
    ensures Exec(N.Next(c), s.net, Acts(c, s, p)) == Some(ThreadStep(c, s, p).net)
    ensures N.Inv(c, ThreadStep(c, s, p).net)
  {
    hide MainInv;
    hide ThreadInv;
    hide PipeInv;
    hide N.Inv;
    var t, n := Id(p), s.net;
    if s.threads[p] == Loop {
      if IsReader(p) {
        if N.CanRead(c, n, t) {
          N.ReadKeepsInv(c, n, t);
        } else {
          ClosedMeansFinished(c, s, t);
          N.EofKeepsInv(c, n, t);
        }
        ExecOne(N.Next(c), n, N.Read(t));
      } else if !N.Finished(c, n, t) {
        N.WriteKeepsInv(c, n, t);
        ExecOne(N.Next(c), n, N.Write(t));
      }
    }
  }

  /** What a step of thread `p` leaves alone. */
  lemma ThreadFrame(c: N.Config, s: State, p: nat)
    requires Sized(c, s) && 1 <= p <= 2 * c.procs && ThreadMoves(c, s, p) && ThreadInv(c, s, p)
    ensures var s' := ThreadStep(c, s, p);
            && Sized(c, s') && s'.main == s.main && s'.writeOpen == s.writeOpen
            && (forall q :: 0 <= q <= 2 * c.procs && q != p ==> s'.threads[q] == s.threads[q])
            && (forall t :: 1 <= t <= c.procs && (t != Id(p) || !IsReader(p)) ==>
                  s'.net.readers[t] == s.net.readers[t] && s'.outs[t] == s.outs[t])
            && (forall t :: 1 <= t <= c.procs && N.Finished(c, s.net, t) ==> N.Finished(c, s'.net, t))
            && ThreadInv(c, s', p)
  {
    hide Mix;
  }

  lemma ThreadKeepsPipe(c: N.Config, s: State, p: nat, t: nat)
    requires Sized(c, s) && 1 <= p <= 2 * c.procs && ThreadMoves(c, s, p) && ThreadInv(c, s, p)
    requires 1 <= t <= c.procs && PipeInv(c, s, t) && MainInv(c, s)
    ensures Sized(c, ThreadStep(c, s, p)) && PipeInv(c, ThreadStep(c, s, p), t)
  {
    if p == 2 * t - 1 {
      ThreadKeepsOwnPipe(c, s, p, t);
    } else {
      hide ThreadStep;
      hide EncodeWord;
      ThreadFrame(c, s, p);
      assert t != Id(p) || !IsReader(p);
    }
  }

  lemma ThreadKeepsOwnPipe(c: N.Config, s: State, p: nat, t: nat)
    requires Sized(c, s) && 1 <= p <= 2 * c.procs && ThreadMoves(c, s, p) && ThreadInv(c, s, p)
    requires 1 <= t <= c.procs && PipeInv(c, s, t) && MainInv(c, s) && p == 2 * t - 1
    ensures Sized(c, ThreadStep(c, s, p)) && PipeInv(c, ThreadStep(c, s, p), t)
  {
    hide EncodeWord;
    hide Mix;
    hide N.CanRead;
    hide N.CanWrite;
    hide N.Drained;
    hide N.Finished;
    hide N.DoWrite;
    assert IsReader(p) && Id(p) == t && s.threads[p] != Ended;
    assert !Collected(c, s, t);
    assert s.outs[t] == [];
    OwnStep(c, s, p, t);
    hide ThreadStep;
  }

  lemma OwnStep(c: N.Config, s: State, p: nat, t: nat)
    requires Sized(c, s) && 1 <= p <= 2 * c.procs && ThreadMoves(c, s, p) && p == 2 * t - 1 && 1 <= t <= c.procs
    ensures var s' := ThreadStep(c, s, p);
            && Sized(c, s') && s'.main == s.main && s'.writeOpen == s.writeOpen
            && (s.threads[p].Loop? ==> s'.outs == s.outs && s'.threads[p] != Ended)
            && (s.threads[p].Output? ==>
                  && s'.threads[p] == Ended && s'.net == s.net
                  && s'.outs[t] == s.outs[t] + EncodeWord(U32(s.net.readers[t].num)))
  {
    hide EncodeWord;
    hide Mix;
    assert IsReader(p) && Id(p) == t;
  }

  lemma ThreadKeepsMain(c: N.Config, s: State, p: nat)
    requires Sized(c, s) && 1 <= p <= 2 * c.procs && ThreadMoves(c, s, p) && ThreadInv(c, s, p) && MainInv(c, s)
    ensures Sized(c, ThreadStep(c, s, p)) && MainInv(c, ThreadStep(c, s, p))
  {
    ThreadFrame(c, s, p);
    hide ThreadStep;
    assert s.threads[p] != Ended;
    assert p == 2 * Id(p) || p == 2 * Id(p) - 1;
    assert !s.main.Collect? && !s.main.Finished?;
  }

  lemma ThreadStepKeepsInv(c: N.Config, s: State, p: nat)
    requires Inv(c, s) && p != 0 && Moves(c, s, p)
    ensures Inv(c, ThreadStep(c, s, p))
  {
    ThreadNet(c, s, p);
    hide N.Inv;
    assert ThreadInv(c, s, p);
    ThreadKeepsMain(c, s, p);
    ThreadFrame(c, s, p);
    hide MainInv;
    forall t | 1 <= t <= c.procs
      ensures PipeInv(c, ThreadStep(c, s, p), t)
    {
      ThreadKeepsPipe(c, s, p, t);
    }
    hide PipeInv;
    hide ThreadStep;
    forall q | 1 <= q <= 2 * c.procs && q != p
      ensures ThreadInv(c, ThreadStep(c, s, p), q)
    {
      assert ThreadInv(c, s, q);
      assert IsReader(q) && IsReader(p) ==> Id(q) != Id(p);
    }
  }

  lemma StepKeepsInv(c: N.Config, s: State, p: nat)
    requires Inv(c, s) && Moves(c, s, p)
    ensures Inv(c, Step(c, s, p))
    ensures Exec(N.Next(c), s.net, Acts(c, s, p)) == Some(Step(c, s, p).net)
  {
    hide Inv;
    if p == 0 {
      MainStepKeepsInv(c, s);
    } else {
      ThreadNet(c, s, p);
      ThreadStepKeepsInv(c, s, p);
    }
  }

  // ----- Progress and termination

  function ThreadLeft(th: Thread): nat
  {
    match th case Unborn => 4 case Loop => 3 case Output => 2 case Ended => 0
  }

  function MainLeft(c: N.Config, m: Main): int
  {
    var n := c.procs;
    match m
    case Spawning(k) => (2 * n + 1 - k) + 5 * n + 9
    case JoinWriters(w) => (n + 2 - w) + 3 * n + 7
    case Closing(i) => (n + 2 - i) + 2 * n + 5
    case JoinReaders(t) => (n + 2 - t) + n + 3
    case Collect(i, _) => n - i + 1
    case Finished(_) => 0
  }

  function ThreadsLeft(s: State): seq<int>
  {
    seq(|s.threads|, p requires 0 <= p < |s.threads| => ThreadLeft(s.threads[p]))
  }

  function Left(c: N.Config, s: State): int
  {
    MainLeft(c, s.main) + Sum(ThreadsLeft(s)) + PipeMeasure.NetLeft(c, s.net)
  }

  lemma LeftNonNegative(c: N.Config, s: State)
    requires Inv(c, s)
    ensures Left(c, s) >= 0
  {
    PipeMeasure.NetLeftNonNegative(c, s.net);
    SumNonNegative(ThreadsLeft(s));
    hide N.Inv;
    hide PipeMeasure.NetLeft;
  }

  lemma MainDecreases(c: N.Config, s: State)
    requires Sized(c, s) && MainMoves(c, s) && MainInv(c, s)
    requires s.main.Spawning? ==> s.threads[s.main.next] == Unborn
    ensures Left(c, MainStep(c, s)) < Left(c, s)
  {
    hide PipeMeasure.NetLeft;
    var s' := MainStep(c, s);
    if s.main.Spawning? {
      SumChange(ThreadsLeft(s), ThreadsLeft(s'), s.main.next);
    } else {
      assert ThreadsLeft(s') == ThreadsLeft(s);
    }
  }

  lemma ThreadDecreases(c: N.Config, s: State, p: nat)
    requires Sized(c, s) && 1 <= p <= 2 * c.procs && ThreadMoves(c, s, p)
    ensures Left(c, ThreadStep(c, s, p)) < Left(c, s)
  {
    hide PipeMeasure.NetLeft;
    var s', t := ThreadStep(c, s, p), Id(p);
    SumChange(ThreadsLeft(s), ThreadsLeft(s'), p);
    if s.threads[p].Loop? {
      if IsReader(p) {
        if N.CanRead(c, s.net, t) {
          PipeMeasure.ReadDecreases(c, s.net, t);
        } else {
          PipeMeasure.EofDecreases(c, s.net, t);
        }
      } else if !N.Finished(c, s.net, t) {
        PipeMeasure.WriteDecreases(c, s.net, t);
      }
    }
  }

  lemma StepDecreases(c: N.Config, s: State, p: nat)
    requires Inv(c, s) && Moves(c, s, p)
    ensures Inv(c, Step(c, s, p)) && 0 <= Left(c, Step(c, s, p)) < Left(c, s)
  {
    StepKeepsInv(c, s, p);
    LeftNonNegative(c, Step(c, s, p));
    hide Left;
    hide N.Inv;
    if p == 0 {
      if s.main.Spawning? {
        assert ThreadInv(c, s, s.main.next);
      }
      MainDecreases(c, s);
    } else {
      ThreadDecreases(c, s, p);
    }
  }

  lemma WriterProgress(c: N.Config, s: State, w: nat)
    requires Inv(c, s) && 1 <= w <= c.procs && !s.main.Spawning? && s.threads[2 * w] != Ended
    ensures exists p :: Moves(c, s, p)
  {
    hide N.Inv;
    hide MainInv;
    hide PipeInv;
    hide N.Target;
    assert ThreadInv(c, s, 2 * w) && !IsReader(2 * w) && Id(2 * w) == w;
    if !N.Finished(c, s.net, w) && !N.CanWrite(c, s.net, w) {
      var j := N.Target(c, s.net, w);
      N.EofMeansFinished(c, s.net, j);
      ReaderMoves(c, s, j);
    } else {
      assert Moves(c, s, 2 * w);
    }
  }

  lemma ReaderMoves(c: N.Config, s: State, j: nat)
    requires Inv(c, s) && 1 <= j <= c.procs && !s.main.Spawning?
    requires !s.net.readers[j].eof && s.net.pipes[j] != []
    ensures Moves(c, s, 2 * j - 1)
  {
    hide N.Inv;
    hide MainInv;
    hide PipeInv;
    assert ThreadInv(c, s, 2 * j - 1) && IsReader(2 * j - 1) && Id(2 * j - 1) == j;
  }

  lemma SomeThreadMoves(c: N.Config, s: State)
    requires Inv(c, s) && !s.main.Finished?
    ensures exists p :: Moves(c, s, p)
  {
    if s.main.JoinWriters? && s.main.w <= c.procs && s.threads[2 * s.main.w] != Ended {
      WriterProgress(c, s, s.main.w);
    } else if s.main.JoinReaders? && s.main.t <= c.procs && s.threads[2 * s.main.t - 1] != Ended {
      hide N.Inv;
      var t := s.main.t;
      var p := 2 * t - 1;
      assert ThreadInv(c, s, p) && IsReader(p) && Id(p) == t && PipeInv(c, s, t);
      assert Moves(c, s, p);
    } else {
      if s.main.Collect? && s.main.i < c.procs {
        CollectedWord(c, s);
      }
      assert Moves(c, s, 0);
    }
  }

  // ----- Shared descriptors and join-then-close implement the abstract network

  ghost function Clone(c: N.Config): Impl<State, nat, N.Net, N.Act>
  {
    Impl(Next(c), s => Inv(c, s), s => Left(c, s), (s: State) => s.net,
         (s, p) => if Moves(c, s, p) then Acts(c, s, p) else [], N.Next(c))
  }

  lemma CloneImplements(c: N.Config)
    ensures Implements(Clone(c)) && Clone(c).inv(Init(c)) && Init(c).net == N.Init(c)
  {
    hide Inv;
    hide Left;
    hide Acts;
    InitInv(c);
    forall s, p | Inv(c, s) && Next(c)(s, p).Some?
      ensures StepImplements(Clone(c), s, p)
    {
      StepKeepsInv(c, s, p);
      StepDecreases(c, s, p);
    }
  }

  /** Every run of the threads is a run of the abstract network. */
  lemma RunRefinesNet(c: N.Config, run: seq<nat>)
    requires Exec(Next(c), Init(c), run).Some?
    ensures var s := Exec(Next(c), Init(c), run).value;
            && Inv(c, s) && |run| + Left(c, s) <= Left(c, Init(c))
            && Exec(N.Next(c), N.Init(c), Seen(Clone(c), Init(c), run)) == Some(s.net)
  {
    hide Inv;
    hide Left;
    CloneImplements(c);
    RunImplements(Clone(c), Init(c), run);
  }

  /** No deadlock and no endless run. */
  lemma RunsEnd(c: N.Config, run: seq<nat>)
    requires Exec(Next(c), Init(c), run).Some?
    ensures |run| <= Left(c, Init(c))
    ensures Exec(Next(c), Init(c), run).value.main.Finished? || exists p :: Moves(c, Exec(Next(c), Init(c), run).value, p)
  {
    hide Inv;
    hide Left;
    RunRefinesNet(c, run);
    var s := Exec(Next(c), Init(c), run).value;
    LeftNonNegative(c, s);
    if !s.main.Finished? {
      SomeThreadMoves(c, s);
    }
  }

  // ----- Every run of the abstract network is one of the threads

  /** In a settled state every step that is possible is one of the abstract network. */
  lemma SettledMoves(c: N.Config, s: State, p: nat)
    requires Settled(Clone(c), s)
    ensures Inv(c, s) && (Moves(c, s, p) ==> Acts(c, s, p) != [])
  {
    hide Inv;
    hide Acts;
    assert !Silent(Clone(c), s, p);
  }

  /** In a settled state a thread is in its loop or has ended, and main waits for one in its loop. */
  lemma SettledThread(c: N.Config, s: State, p: nat)
    requires Settled(Clone(c), s) && 1 <= p <= 2 * c.procs
    ensures s.threads[p] == Loop || s.threads[p] == Ended
    ensures !IsReader(p) ==> (s.threads[p] == Loop <==> !N.Finished(c, s.net, Id(p)))
    ensures IsReader(p) ==> (s.threads[p] == Loop <==> !s.net.readers[Id(p)].eof)
  {
    SettledMoves(c, s, p);
    SettledMoves(c, s, 0);
    hide N.Inv;
    assert ThreadInv(c, s, p);
    assert IsReader(p) ==> PipeInv(c, s, Id(p)) && p == 2 * Id(p) - 1;
  }

  lemma SettledAct(c: N.Config, s: State, a: N.Act) returns (p: nat)
    requires Settled(Clone(c), s) && N.Next(c)(s.net, a).Some?
    ensures Moves(c, s, p) && Acts(c, s, p) == [a]
  {
    match a
    case Write(w) =>
      p := 2 * w;
      assert Id(p) == w && !IsReader(p);
      SettledThread(c, s, p);
      hide Inv;
    case Read(j) =>
      p := 2 * j - 1;
      assert Id(p) == j && IsReader(p);
      SettledThread(c, s, p);
      if !N.CanRead(c, s.net, j) {
        SettledDrained(c, s, j);
      }
      hide Inv;
  }

  lemma SettledDrained(c: N.Config, s: State, j: nat)
    requires Settled(Clone(c), s) && N.AllFinished(c, s.net) && 1 <= j <= c.procs
    ensures !s.writeOpen[j]
  {
    forall w | 1 <= w <= c.procs
      ensures s.threads[2 * w] == Ended
    {
      assert !IsReader(2 * w) && Id(2 * w) == w && N.Finished(c, s.net, w);
      SettledThread(c, s, 2 * w);
    }
    SettledMoves(c, s, 0);
    hide N.Inv;
    assert PipeInv(c, s, j);
  }

  lemma CloneFollows(c: N.Config)
    ensures Follows(Clone(c))
  {
    forall s, a | Settled(Clone(c), s) && N.Next(c)(s.net, a).Some?
      ensures CanFollow(Clone(c), s, a)
    {
      hide Acts;
      var p := SettledAct(c, s, a);
      hide Inv;
      hide Settled;
      assert Clone(c).next(s, p).Some? && Clone(c).acts(s, p) == [a];
    }
  }

  lemma SettledAndReadIsFinished(c: N.Config, s: State)
    requires Settled(Clone(c), s) && N.AllRead(c, s.net)
    ensures s.main.Finished?
  {
    if !s.main.Finished? {
      SomeThreadMoves(c, s);
      var p :| Moves(c, s, p);
      SettledMoves(c, s, p);
      SettledThread(c, s, p);
      N.EofMeansFinished(c, s.net, 1);
      assert false;
    }
  }

  // ----- The results

  ghost predicate IsResult(c: N.Config, n: N.Net, sig: nat)
  {
    exists run :: Finishes(c, run, n, sig)
  }

  ghost predicate Finishes(c: N.Config, run: seq<nat>, n: N.Net, sig: nat)
  {
    match Exec(Next(c), Init(c), run)
    case None => false
    case Some(s) => s.main == Finished(sig) && s.net == n
  }

  lemma FinishedMeansRead(c: N.Config, s: State)
    requires Inv(c, s) && s.main.Finished?
    ensures N.AllRead(c, s.net) && s.main.sig == N.Signature(s.net, c.procs)
  {
    hide N.Signature;
    hide N.Inv;
    forall j | 1 <= j <= c.procs
      ensures s.net.readers[j].eof
    {
      assert ThreadInv(c, s, 2 * j - 1) && IsReader(2 * j - 1) && Id(2 * j - 1) == j;
    }
  }

  /** The threads leave the network exactly as the abstract network can be left. */
  lemma CloneResults(c: N.Config, n: N.Net, sig: nat)
    ensures IsResult(c, n, sig) <==> N.IsResult(c, n) && sig == N.Signature(n, c.procs)
  {
    hide Inv;
    hide Left;
    if IsResult(c, n, sig) {
      var run :| Finishes(c, run, n, sig);
      RunRefinesNet(c, run);
      FinishedMeansRead(c, Exec(Next(c), Init(c), run).value);
    }
    if N.IsResult(c, n) && sig == N.Signature(n, c.procs) {
      var acts :| Exec(N.Next(c), N.Init(c), acts) == Some(n) && N.AllRead(c, n);
      CloneImplements(c);
      CloneFollows(c);
      var run, s := Realise(Clone(c), Init(c), acts);
      SettledMoves(c, s, 0);
      SettledAndReadIsFinished(c, s);
      FinishedMeansRead(c, s);
      assert Finishes(c, run, n, sig);
    }
  }
}
