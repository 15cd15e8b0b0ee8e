/**
 Steps of racey-forkpipe.c: each keeps the invariant and is a step of the abstract network or
 leaves it alone, and some process can always move.
 */
module ForkPipeSteps {
  import opened Mixing
  import opened Runs
  import opened Messages
  import opened PipeWorkers
  import opened ForkPipe
  import N = PipeNet

  // ----- Counting the exited children

  lemma {:induction false} ExitedUpdate(procs: seq<Proc>, p: nat, x: Proc)
    requires p < |procs|
    ensures ExitedCount(procs[p := x])
         == ExitedCount(procs) - (if procs[p] == Exited then 1 else 0) + if x == Exited then 1 else 0
    decreases |procs|
  {
    var front, last := procs[..|procs| - 1], |procs| - 1;
    if p == last {
      assert procs[p := x][..last] == front;
    } else {
      ExitedUpdate(front, p, x);
      assert procs[p := x][..last] == front[p := x];
    }
  }

  lemma {:induction false} ExitedBound(procs: seq<Proc>)
    requires procs != [] && procs[0] == Unborn
    ensures ExitedCount(procs) <= |procs| - 1
    ensures ExitedCount(procs) == |procs| - 1 <==> forall p :: 1 <= p < |procs| ==> procs[p] == Exited
    decreases |procs|
  {
    var front, last := procs[..|procs| - 1], |procs| - 1;
    if last == 0 {
      assert front == [];
    } else {
      ExitedBound(front);
      assert forall p :: 1 <= p < last ==> front[p] == procs[p];
    }
  }

  // ----- Initially

  lemma {:induction false} NoneExited(procs: seq<Proc>)
    requires forall p :: 0 <= p < |procs| ==> procs[p] == Unborn
    ensures ExitedCount(procs) == 0
    decreases |procs|
  {
    if procs != [] {
      NoneExited(procs[..|procs| - 1]);
    }
  }

  lemma InitInv(c: N.Config)
    ensures Inv(c, Init(c))
  {
    hide N.Inv;
    N.InitInv(c);
    var s := Init(c);
    forall p | 1 <= p <= 2 * c.procs
      ensures ChildInv(c, s, p)
    {
      hide Closes;
    }
    assert MainInv(c, s);
    assert forall t :: 1 <= t <= c.procs ==> OutInv(c, s, t);
  }

  // ----- Steps of main

  lemma MainKeepsChild(c: N.Config, s: State, p: nat)
    requires Sized(c, s) && MainMoves(c, s) && MainInv(c, s) && 1 <= p <= 2 * c.procs && ChildInv(c, s, p)
    ensures ChildInv(c, MainStep(c, s), p)
  {
    hide Closes;
    StartAndKeep(c, StartOf(p), KeepOf(p));
  }

  lemma MainKeepsMain(c: N.Config, s: State)
    requires Sized(c, s) && MainMoves(c, s) && MainInv(c, s)
    requires forall p :: 1 <= p <= 2 * c.procs ==> ChildInv(c, s, p)
    requires forall t :: 1 <= t <= c.procs ==> OutInv(c, s, t)
    requires forall j :: 1 <= j <= c.procs ==> s.net.readers[j].eof ==> s.net.readers[j].num < PRIME1
    ensures MainInv(c, MainStep(c, s))
  {
    hide Closes;
    StartAndKeep(c, MainStart, MainKeep);
    match s.main
    case Forking(k) =>
    case Closing(todo) =>
      if todo != [] {
        CloseHead(todo, ToSet(Closes(c, MainKeep)));
      }
    case Waiting(k) =>
      ExitedBound(s.procs);
    case Collect(i, sig) =>
      if i < c.procs {
        CollectedWord(c, s, i);
      }
  }

  lemma CollectedWord(c: N.Config, s: State, i: nat)
    requires Sized(c, s) && AllExited(c, s) && s.main.Collect? && s.main.i == i && 1 <= i < c.procs
    requires OutInv(c, s, i) && ChildInv(c, s, 2 * i - 1)
    requires s.net.readers[i].eof ==> s.net.readers[i].num < PRIME1
    ensures |s.outs[i]| == WORD_SIZE && DecodeWord(s.outs[i][..WORD_SIZE]) == s.net.readers[i].num
  {
    hide Closes;
    var num := s.net.readers[i].num;
    assert s.procs[ReaderProc(i)] == Exited;
    assert IsReader(2 * i - 1) && Id(2 * i - 1) == i;
    NumRoundTrip(num, s.outs[i]);
  }

  lemma MainKeepsOut(c: N.Config, s: State, t: nat)
    requires Sized(c, s) && MainMoves(c, s) && MainInv(c, s) && 1 <= t <= c.procs && OutInv(c, s, t)
    requires ChildInv(c, s, ReaderProc(t))
    requires s.main.Collect? && s.main.i < c.procs ==> |s.outs[s.main.i]| == WORD_SIZE
    ensures OutInv(c, MainStep(c, s), t)
  {
    hide Closes;
    hide Mix;
    hide EncodeWord;
  }

  /** The branch "no output from thread" of main is unreachable. */
  lemma CollectNeedsOutput(c: N.Config, s: State)
    requires Inv(c, s) && s.main.Collect? && s.main.i < c.procs
    ensures |s.outs[s.main.i]| == WORD_SIZE
  {
    hide N.Inv;
    var i := s.main.i;
    assert s.net.readers[i].eof by {
      hide Closes;
      assert ChildInv(c, s, 2 * i - 1) && IsReader(2 * i - 1) && Id(2 * i - 1) == i;
    }
    N.EofNumIsSmall(c, s.net, i);
    CollectedWord(c, s, i);
  }

  lemma MainStepKeepsInv(c: N.Config, s: State)
    requires Inv(c, s) && MainMoves(c, s)
    ensures Inv(c, MainStep(c, s)) && MainStep(c, s).net == s.net
  {
    hide N.Inv;
    hide MainInv;
    hide ChildInv;
    hide OutInv;
    forall j | 1 <= j <= c.procs
      ensures s.net.readers[j].eof ==> s.net.readers[j].num < PRIME1
    {
      if s.net.readers[j].eof {
        N.EofNumIsSmall(c, s.net, j);
      }
    }
    MainKeepsMain(c, s);
    if s.main.Collect? && s.main.i < c.procs {
      CollectNeedsOutput(c, s);
    }
    forall p | 1 <= p <= 2 * c.procs
      ensures ChildInv(c, MainStep(c, s), p)
    {
      MainKeepsChild(c, s, p);
    }
    forall t | 1 <= t <= c.procs
      ensures OutInv(c, MainStep(c, s), t)
    {
      MainKeepsOut(c, s, t);
    }
  }

  // ----- Steps of the children

  /** The step of the abstract network that a step of process `p` performs, if any. */
  function Acts(c: N.Config, s: State, p: nat): seq<N.Act>
    requires Moves(c, s, p)
  {
    if p == 0 || s.procs[p] != Loop then []
    else if IsReader(p) then [N.Read(Id(p))]
    else if N.Finished(c, s.net, Id(p)) then []
    else [N.Write(Id(p))]
  }

  lemma ChildNet(c: N.Config, s: State, p: nat)
    requires Inv(c, s) && p != 0 && Moves(c, s, p)
    ensures Exec(N.Next(c), s.net, Acts(c, s, p)) == Some(ChildStep(c, s, p).net)
    ensures N.Inv(c, ChildStep(c, s, p).net)
  {
    hide MainInv;
    hide ChildInv;
    hide OutInv;
    hide N.Inv;
    var t, n := Id(p), s.net;
    if s.procs[p] == Loop {
      if IsReader(p) {
        if N.CanRead(c, n, t) {
          N.ReadKeepsInv(c, n, t);
        } else {
          ClosedMeansFinished(c, s, t);
          N.EofKeepsInv(c, n, t);
        }
        ExecOne(N.Next(c), n, N.Read(t));
      } else if !N.Finished(c, n, t) {
        N.WriteKeepsInv(c, n, t);
        ExecOne(N.Next(c), n, N.Write(t));
      }
    }
  }

  /** What a step of `p` leaves alone. */
  lemma ChildFrame(c: N.Config, s: State, p: nat)
    requires Sized(c, s) && 1 <= p <= 2 * c.procs && ChildMoves(c, s, p) && (s.procs[p].Output? ==> IsReader(p))
    ensures var s' := ChildStep(c, s, p);
            && Sized(c, s') && s'.main == s.main
            && (forall q :: 0 <= q <= 2 * c.procs && q != p ==> s'.procs[q] == s.procs[q] && s'.fds[q] == s.fds[q])
            && (forall t :: 1 <= t <= c.procs && (t != Id(p) || !IsReader(p)) ==>
                  s'.net.readers[t] == s.net.readers[t] && s'.outs[t] == s.outs[t])
            && (forall t :: 1 <= t <= c.procs && N.Finished(c, s.net, t) ==> N.Finished(c, s'.net, t))
  {
    hide Mix;
    hide Closes;
  }

  lemma ChildKeepsOther(c: N.Config, s: State, p: nat, q: nat)
    requires Sized(c, s) && 1 <= p <= 2 * c.procs && ChildMoves(c, s, p)
    requires 1 <= q <= 2 * c.procs && q != p && ChildInv(c, s, q) && (s.procs[p].Output? ==> IsReader(p))
    ensures Sized(c, ChildStep(c, s, p)) && ChildInv(c, ChildStep(c, s, p), q)
  {
    ChildFrame(c, s, p);
    hide ChildStep;
    hide Closes;
    assert IsReader(q) && IsReader(p) ==> Id(q) != Id(p);
  }

  lemma ChildKeepsOwn(c: N.Config, s: State, p: nat)
    requires Sized(c, s) && 1 <= p <= 2 * c.procs && ChildMoves(c, s, p) && ChildInv(c, s, p)
    ensures Sized(c, ChildStep(c, s, p)) && ChildInv(c, ChildStep(c, s, p), p)
  {
    hide Closes;
    hide Mix;
    hide N.Finished;
    var t := Id(p);
    match s.procs[p]
    case Prelude(todo) =>
      if todo != [] {
        CloseHead(todo, ToSet(Closes(c, KeepOf(p))));
      }
    case Loop =>
      RowsIff(WriterKeep, 1, c.procs);
      assert NoDuplicates(Closes(c, WriterKeep)) by { Distinct(c, WriterKeep); }
    case Output =>
      ReaderFinale(c, t);
    case Finale(todo) =>
      if todo != [] {
        CloseHead(todo, {});
      }
  }

  lemma Distinct(c: N.Config, w: Sweep)
    ensures NoDuplicates(Closes(c, w))
  {
    RowsIff(w, 1, c.procs);
  }

  lemma ChildKeepsMain(c: N.Config, s: State, p: nat)
    requires Sized(c, s) && 1 <= p <= 2 * c.procs && ChildMoves(c, s, p) && MainInv(c, s)
    requires s.procs[p].Output? ==> IsReader(p)
    ensures Sized(c, ChildStep(c, s, p)) && MainInv(c, ChildStep(c, s, p))
  {
    ChildFrame(c, s, p);
    var s' := ChildStep(c, s, p);
    ExitedUpdate(s.procs, p, s'.procs[p]);
    assert s'.procs == s.procs[p := s'.procs[p]];
    hide ChildStep;
    hide Closes;
    assert s.procs[p] != Exited;
  }

  lemma ChildKeepsOut(c: N.Config, s: State, p: nat, t: nat)
    requires Sized(c, s) && 1 <= p <= 2 * c.procs && ChildMoves(c, s, p) && MainInv(c, s)
    requires (s.procs[p].Output? ==> IsReader(p)) && 1 <= t <= c.procs && OutInv(c, s, t)
    ensures Sized(c, ChildStep(c, s, p)) && OutInv(c, ChildStep(c, s, p), t)
  {
    hide Closes;
    hide EncodeWord;
    hide Mix;
    hide N.CanRead;
    hide N.CanWrite;
    hide N.Drained;
    hide N.Finished;
    hide N.DoWrite;
    ChildFrame(c, s, p);
    assert s.procs[p] != Exited;
    assert !Collected(c, s, t);
    if p != ReaderProc(t) {
      hide ChildStep;
      assert t != Id(p) || !IsReader(p);
    }
  }

  lemma ChildStepKeepsInv(c: N.Config, s: State, p: nat)
    requires Inv(c, s) && p != 0 && Moves(c, s, p)
    ensures Inv(c, ChildStep(c, s, p))
  {
    ChildNet(c, s, p);
    assert s.procs[p].Output? ==> IsReader(p) by {
      assert ChildInv(c, s, p);
    }
    ChildKeepsMain(c, s, p);
    hide N.Inv;
    hide MainInv;
    hide ChildInv;
    hide OutInv;
    forall q | 1 <= q <= 2 * c.procs
      ensures ChildInv(c, ChildStep(c, s, p), q)
    {
      if q == p {
        ChildKeepsOwn(c, s, p);
      } else {
        ChildKeepsOther(c, s, p, q);
      }
    }
    forall t | 1 <= t <= c.procs
      ensures OutInv(c, ChildStep(c, s, p), t)
    {
      ChildKeepsOut(c, s, p, t);
    }
  }

  // ----- Every step

  lemma StepKeepsInv(c: N.Config, s: State, p: nat)
    requires Inv(c, s) && Moves(c, s, p)
    ensures Inv(c, Step(c, s, p))
    ensures Exec(N.Next(c), s.net, Acts(c, s, p)) == Some(Step(c, s, p).net)
  {
    hide Inv;
    if p == 0 {
      MainStepKeepsInv(c, s);
    } else {
      ChildNet(c, s, p);
      ChildStepKeepsInv(c, s, p);
    }
  }

  // ----- Progress

  lemma ReaderStateMoves(c: N.Config, s: State, t: nat)
    requires Inv(c, s) && 1 <= t <= c.procs && !s.main.Forking?
    requires !s.net.readers[t].eof && s.net.pipes[t] != []
    ensures Moves(c, s, 2 * t - 1)
  {
    hide N.Inv;
    hide Closes;
    assert ChildInv(c, s, 2 * t - 1) && IsReader(2 * t - 1) && Id(2 * t - 1) == t;
  }

  /** A writer that has not exited moves, or the reader of the full pipe it waits for does. */
  lemma WriterProgress(c: N.Config, s: State, w: nat)
    requires Inv(c, s) && 1 <= w <= c.procs && !s.main.Forking? && s.procs[2 * w] != Exited
    ensures exists p :: Moves(c, s, p)
  {
    hide Closes;
    assert ChildInv(c, s, 2 * w) && !IsReader(2 * w) && Id(2 * w) == w;
    if s.procs[2 * w].Loop? && !N.Finished(c, s.net, w) && !N.CanWrite(c, s.net, w) {
      var j := N.Target(c, s.net, w);
      N.EofMeansFinished(c, s.net, j);
      ReaderStateMoves(c, s, j);
    } else {
      assert Moves(c, s, 2 * w);
    }
  }

  /** Once all writers have exited, a reader waits at most for other processes to close. */
  lemma ReaderProgress(c: N.Config, s: State, t: nat)
    requires Inv(c, s) && 1 <= t <= c.procs && s.procs[2 * t - 1] != Exited
    requires !s.main.Forking? && !s.main.Closing?
    requires forall w :: 1 <= w <= c.procs ==> s.procs[2 * w] == Exited
    requires forall u :: 1 <= u <= c.procs ==> !s.procs[2 * u - 1].Prelude?
    ensures Moves(c, s, 2 * t - 1)
  {
    hide N.Inv;
    hide MainInv;
    hide ChildInv;
    hide OutInv;
    hide IsOpen;
    var p := 2 * t - 1;
    assert IsReader(p) && Id(p) == t;
    ReaderFacts(c, s, t);
    if s.procs[p].Loop? && s.net.pipes[t] == [] {
      NoWriteEndLeft(c, s, t);
      WritersExited(c, s);
    }
  }

  lemma ReaderFacts(c: N.Config, s: State, t: nat)
    requires Inv(c, s) && 1 <= t <= c.procs && !s.main.Forking?
    ensures !s.procs[2 * t - 1].Unborn?
    ensures s.procs[2 * t - 1].Loop? ==> !s.net.readers[t].eof
    ensures s.procs[2 * t - 1].Output? ==> s.outs[t] == []
  {
    hide N.Inv;
    hide Closes;
    hide MainInv;
    hide EncodeWord;
    var p := 2 * t - 1;
    assert IsReader(p) && Id(p) == t && ReaderProc(t) == p;
    assert ChildInv(c, s, p) && OutInv(c, s, t);
  }

  lemma WritersExited(c: N.Config, s: State)
    requires Inv(c, s) && forall w :: 1 <= w <= c.procs ==> s.procs[2 * w] == Exited
    ensures N.AllFinished(c, s.net)
  {
    hide N.Inv;
    hide Closes;
    hide MainInv;
    hide OutInv;
    hide N.Finished;
    forall w | 1 <= w <= c.procs
      ensures N.Finished(c, s.net, w)
    {
      assert ChildInv(c, s, 2 * w) && !IsReader(2 * w) && Id(2 * w) == w;
    }
  }

  lemma NoWriteEndLeft(c: N.Config, s: State, t: nat)
    requires Inv(c, s) && !s.main.Forking? && !s.main.Closing?
    requires forall w :: 1 <= w <= c.procs ==> s.procs[2 * w] == Exited
    requires forall u :: 1 <= u <= c.procs ==> !s.procs[2 * u - 1].Prelude?
    ensures !IsOpen(s, Fd(In, t, WR))
  {
    forall q | 0 <= q <= 2 * c.procs
      ensures Fd(In, t, WR) !in s.fds[q]
    {
      hide Inv;
      assert q == 0 || q == 2 * Id(q) || q == 2 * Id(q) - 1;
      HoldsNoWriteEnd(c, s, q, t);
    }
  }

  lemma HoldsNoWriteEnd(c: N.Config, s: State, q: nat, t: nat)
    requires Inv(c, s) && q <= 2 * c.procs
    requires !s.main.Forking? && !s.main.Closing?
    requires q > 0 ==> !s.procs[q].Prelude? && (IsReader(q) || s.procs[q].Exited?)
    ensures Fd(In, t, WR) !in s.fds[q]
  {
    hide N.Inv;
    hide Rows;
    if q > 0 {
      RowsIff(KeepOf(q), 1, c.procs);
      assert ChildInv(c, s, q);
    } else {
      RowsIff(MainKeep, 1, c.procs);
      assert MainInv(c, s);
    }
  }

  lemma SomeProcessMoves(c: N.Config, s: State)
    requires Inv(c, s) && !s.main.Finished?
    ensures exists p :: Moves(c, s, p)
  {
    hide N.Inv;
    hide ChildInv;
    hide Closes;
    if s.main.Waiting? && s.main.reaped < 2 * c.procs && ExitedCount(s.procs) <= s.main.reaped {
      ExitedBound(s.procs);
      var p :| 1 <= p <= 2 * c.procs && s.procs[p] != Exited;
      if w :| 1 <= w <= c.procs && s.procs[2 * w] != Exited {
        WriterProgress(c, s, w);
      } else if u :| 1 <= u <= c.procs && s.procs[2 * u - 1].Prelude? {
        assert Moves(c, s, 2 * u - 1);
      } else {
        assert p == 2 * Id(p) || p == 2 * Id(p) - 1;
        ReaderProgress(c, s, Id(p));
      }
    } else {
      if s.main.Collect? && s.main.i < c.procs {
        CollectNeedsOutput(c, s);
      }
      assert Moves(c, s, 0);
    }
  }
}
