/**
 Runs of racey-forkpipe.c: they are the runs of the abstract network, all of them, and every run
 ends, since a natural number decreases with every step.
 */
module ForkPipeRuns {
  import opened Runs
  import opened Simulation
  import opened Messages
  import opened PipeWorkers
  import opened Sums
  import opened ForkPipe
  import opened ForkPipeSteps
  import N = PipeNet
  import PipeMeasure

  function LoopLeft(c: N.Config): nat { |Closes(c, WriterKeep)| + 5 }

  function ChildLeft(c: N.Config, p: nat, pr: Proc): nat
  {
    match pr
    case Unborn => |Closes(c, StartOf(p))| + LoopLeft(c) + 2
    case Prelude(todo) => |todo| + LoopLeft(c) + 1
    case Loop => LoopLeft(c)
    case Output => 4
    case Finale(todo) => |todo| + 1
    case Exited => 0
  }

  function MainLeft(c: N.Config, m: Main): int
  {
    match m
    case Forking(k) => (2 * c.procs + 1 - k) + |Closes(c, MainStart)| + 3 * c.procs + 3
    case Closing(todo) => |todo| + 3 * c.procs + 2
    case Waiting(k) => (2 * c.procs - k) + c.procs + 1
    case Collect(i, _) => c.procs - i + 1
    case Finished(_) => 0
    case NoOutput(_) => 0
  }

  /** Process 0 is main, which `MainLeft` accounts for. */
  function ChildrenLeft(c: N.Config, s: State): seq<int>
  {
    seq(|s.procs|, p requires 0 <= p < |s.procs| => if p == 0 then 0 else ChildLeft(c, p, s.procs[p]))
  }

  function Left(c: N.Config, s: State): int
  {
    MainLeft(c, s.main) + Sum(ChildrenLeft(c, s)) + PipeMeasure.NetLeft(c, s.net)
  }

  lemma ChildLeftChange(c: N.Config, s: State, s': State, p: nat)
    requires 1 <= p < |s.procs| == |s'.procs| && s'.procs == s.procs[p := s'.procs[p]]
    ensures Sum(ChildrenLeft(c, s'))
         == Sum(ChildrenLeft(c, s)) - ChildLeft(c, p, s.procs[p]) + ChildLeft(c, p, s'.procs[p])
  {
    SumChange(ChildrenLeft(c, s), ChildrenLeft(c, s'), p);
  }

  lemma MainDecreases(c: N.Config, s: State)
    requires Sized(c, s) && MainMoves(c, s) && MainInv(c, s)
    requires s.main.Forking? ==> s.procs[s.main.next] == Unborn
    ensures Left(c, MainStep(c, s)) < Left(c, s)
  {
    hide Closes;
    hide PipeMeasure.NetLeft;
    var s' := MainStep(c, s);
    if s.main.Forking? {
      ChildLeftChange(c, s, s', s.main.next);
    } else {
      assert ChildrenLeft(c, s') == ChildrenLeft(c, s);
    }
  }

  lemma ChildDecreases(c: N.Config, s: State, p: nat)
    requires Sized(c, s) && 1 <= p <= 2 * c.procs && ChildMoves(c, s, p)
    ensures Left(c, ChildStep(c, s, p)) < Left(c, s)
  {
    hide Closes;
    hide PipeMeasure.NetLeft;
    var s', t := ChildStep(c, s, p), Id(p);
    ChildLeftChange(c, s, s', p);
    if s.procs[p].Loop? {
      if IsReader(p) {
        if N.CanRead(c, s.net, t) {
          PipeMeasure.ReadDecreases(c, s.net, t);
        } else {
          PipeMeasure.EofDecreases(c, s.net, t);
        }
      } else if !N.Finished(c, s.net, t) {
        PipeMeasure.WriteDecreases(c, s.net, t);
      }
    }
  }

  lemma LeftNonNegative(c: N.Config, s: State)
    requires Inv(c, s)
    ensures Left(c, s) >= 0
  {
    PipeMeasure.NetLeftNonNegative(c, s.net);
    SumNonNegative(ChildrenLeft(c, s));
    hide N.Inv;
    hide Closes;
    hide PipeMeasure.NetLeft;
  }

  lemma StepDecreases(c: N.Config, s: State, p: nat)
    requires Inv(c, s) && Moves(c, s, p)
    ensures Inv(c, Step(c, s, p)) && 0 <= Left(c, Step(c, s, p)) < Left(c, s)
  {
    StepKeepsInv(c, s, p);
    LeftNonNegative(c, Step(c, s, p));
    hide Left;
    if p == 0 {
      if s.main.Forking? {
        hide N.Inv;
        hide Closes;
        assert ChildInv(c, s, s.main.next);
      }
      MainDecreases(c, s);
    } else {
      ChildDecreases(c, s, p);
    }
  }

  // ----- Processes, descriptor tables and reference counts implement the abstract network

  ghost function Fork(c: N.Config): Impl<State, nat, N.Net, N.Act>
  {
    Impl(Next(c), s => Inv(c, s), s => Left(c, s), (s: State) => s.net,
         (s, p) => if Moves(c, s, p) then Acts(c, s, p) else [], N.Next(c))
  }

  lemma ForkImplements(c: N.Config)
    ensures Implements(Fork(c)) && Fork(c).inv(Init(c)) && Init(c).net == N.Init(c)
  {
    hide Inv;
    hide Left;
    hide Acts;
    InitInv(c);
    forall s, p | Inv(c, s) && Next(c)(s, p).Some?
      ensures StepImplements(Fork(c), s, p)
    {
      StepKeepsInv(c, s, p);
      StepDecreases(c, s, p);
    }
  }

  /** Every run of the processes is a run of the abstract network. */
  lemma RunRefinesNet(c: N.Config, run: seq<nat>)
    requires Exec(Next(c), Init(c), run).Some?
    ensures var s := Exec(Next(c), Init(c), run).value;
            && Inv(c, s) && |run| + Left(c, s) <= Left(c, Init(c))
            && Exec(N.Next(c), N.Init(c), Seen(Fork(c), Init(c), run)) == Some(s.net)
  {
    hide Inv;
    hide Left;
    ForkImplements(c);
    RunImplements(Fork(c), Init(c), run);
  }

  /**
   A reader that has been told the end of its input has consumed all that was ever sent to it,
   and all writers have written all their messages, even if some process is yet to be forked.
   */
  lemma ExactEof(c: N.Config, run: seq<nat>, t: nat)
    requires Exec(Next(c), Init(c), run).Some? && 1 <= t <= c.procs
    requires var s := Exec(Next(c), Init(c), run).value; t < |s.net.readers| && s.net.readers[t].eof
    ensures var n := Exec(Next(c), Init(c), run).value.net;
            && N.Sized(c, n) && N.AllFinished(c, n) && N.Concat(n.got[t]) == N.Wire(n.sent[t])
            && forall w :: 1 <= w <= c.procs ==> N.From(n.sent[t], w) == N.Addressed(c.procs, w, c.maxLoop, t)
  {
    RunRefinesNet(c, run);
    var n := Exec(Next(c), Init(c), run).value.net;
    N.EofIsExact(c, n, t);
  }

  /** Whenever a reader could be told the end of its input, no writer is left that may still write. */
  lemma NoEarlyEof(c: N.Config, run: seq<nat>, t: nat)
    requires Exec(Next(c), Init(c), run).Some? && 1 <= t <= c.procs
    ensures var s := Exec(Next(c), Init(c), run).value;
            Sized(c, s) && (!IsOpen(s, Fd(In, t, WR)) ==> N.AllFinished(c, s.net))
  {
    RunRefinesNet(c, run);
    var s := Exec(Next(c), Init(c), run).value;
    if !IsOpen(s, Fd(In, t, WR)) {
      ClosedMeansFinished(c, s, t);
    }
  }

  /** A writer finds a read end of every pipe open, so no write() is answered with SIGPIPE. */
  lemma WritesHaveReaders(c: N.Config, run: seq<nat>, w: nat, j: nat)
    requires Exec(Next(c), Init(c), run).Some? && 1 <= w <= c.procs && 1 <= j <= c.procs
    requires var s := Exec(Next(c), Init(c), run).value; 2 * w < |s.procs| && s.procs[2 * w] == Loop
    ensures IsOpen(Exec(Next(c), Init(c), run).value, Fd(In, j, RD))
  {
    RunRefinesNet(c, run);
    hide Inv;
    WriterHoldsWriteEnds(c, Exec(Next(c), Init(c), run).value, w, j);
  }

  lemma MainOpens(c: N.Config, s: State)
    requires Inv(c, s)
    ensures Sized(c, s)
    ensures s.main.Waiting? || s.main.Collect? || s.main.Finished? ==> s.fds[0] == ToSet(Closes(c, MainKeep))
  {
    hide N.Inv;
    hide Closes;
    hide ToSet;
    hide ChildInv;
    hide OutInv;
  }

  lemma ChildOpens(c: N.Config, s: State, p: nat)
    requires Inv(c, s) && 1 <= p <= 2 * c.procs
    ensures Sized(c, s)
    ensures s.procs[p] == Loop ==> s.fds[p] == ToSet(Closes(c, if p % 2 == 1 then ReaderKeep((p + 1) / 2) else WriterKeep))
    ensures s.procs[p] == Exited ==> s.fds[p] == {}
  {
    hide N.Inv;
    hide Closes;
    hide ToSet;
    hide MainInv;
    hide OutInv;
    assert ChildInv(c, s, p);
  }

  /**
   In its loop reader t has open the read end of its input and the write end of its output, and a
   writer both ends of every input; main collects with the read ends of the outputs.
   */
  lemma OpenInLoop(c: N.Config, run: seq<nat>, p: nat, fd: Fd)
    requires Exec(Next(c), Init(c), run).Some? && p <= 2 * c.procs
    ensures var s := Exec(Next(c), Init(c), run).value;
            && Sized(c, s)
            && (p == 0 && (s.main.Waiting? || s.main.Collect? || s.main.Finished?) ==>
                  (fd in s.fds[0] <==> 1 <= fd.pipe <= c.procs && fd.kind == Out && fd.end == RD))
            && (p > 0 && s.procs[p] == Loop && p % 2 == 1 ==>
                  (fd in s.fds[p] <==> fd == Fd(In, (p + 1) / 2, RD) || fd == Fd(Out, (p + 1) / 2, WR)))
            && (p > 0 && s.procs[p] == Loop && p % 2 == 0 ==>
                  (fd in s.fds[p] <==> 1 <= fd.pipe <= c.procs && fd.kind == In))
            && (p > 0 && s.procs[p] == Exited ==> s.fds[p] == {})
  {
    hide Inv;
    RunRefinesNet(c, run);
    var s := Exec(Next(c), Init(c), run).value;
    hide Exec;
    hide ToSet;
    KeptDescriptors(c, if p == 0 then 1 else (p + 1) / 2, fd);
    if p == 0 {
      MainOpens(c, s);
    } else {
      ChildOpens(c, s, p);
    }
  }

  /** Every descriptor that a process closes is one that it has open. */
  lemma ClosesAreValid(c: N.Config, run: seq<nat>, p: nat)
    requires Exec(Next(c), Init(c), run).Some? && p <= 2 * c.procs
    ensures var s := Exec(Next(c), Init(c), run).value;
            && Sized(c, s)
            && (p == 0 && s.main.Closing? && s.main.todo != [] ==> s.main.todo[0] in s.fds[0])
            && (p > 0 && s.procs[p].Prelude? && s.procs[p].todo != [] ==> s.procs[p].todo[0] in s.fds[p])
            && (p > 0 && s.procs[p].Finale? && s.procs[p].todo != [] ==> s.procs[p].todo[0] in s.fds[p])
  {
    RunRefinesNet(c, run);
    hide Closes;
    hide N.Inv;
    assert p > 0 ==> ChildInv(c, Exec(Next(c), Init(c), run).value, p);
  }

  /**
   No deadlock and no endless run: there is a bound on the length of all runs, and a run that
   cannot be continued is one in which main has printed its result.
   */
  lemma RunsEnd(c: N.Config, run: seq<nat>)
    requires Exec(Next(c), Init(c), run).Some?
    ensures |run| <= Left(c, Init(c))
    ensures Exec(Next(c), Init(c), run).value.main.Finished? || exists p :: Moves(c, Exec(Next(c), Init(c), run).value, p)
  {
    hide Inv;
    hide Left;
    RunRefinesNet(c, run);
    var s := Exec(Next(c), Init(c), run).value;
    LeftNonNegative(c, s);
    if !s.main.Finished? {
      SomeProcessMoves(c, s);
    }
  }

  // ----- Every run of the abstract network is one of the processes

  /** In a settled state every step that is possible is one of the abstract network. */
  lemma SettledMoves(c: N.Config, s: State, p: nat)
    requires Settled(Fork(c), s)
    ensures Inv(c, s) && (Moves(c, s, p) ==> Acts(c, s, p) != [])
  {
    hide Inv;
    hide Acts;
    assert !Silent(Fork(c), s, p);
  }

  /** In a settled state a process is in its loop, or it is gone. */
  lemma SettledChild(c: N.Config, s: State, p: nat)
    requires Settled(Fork(c), s) && 1 <= p <= 2 * c.procs
    ensures Sized(c, s) && !s.main.Forking? && !s.main.Closing?
    ensures s.procs[p] == Loop || s.procs[p] == Exited
    ensures !IsReader(p) && s.procs[p] == Loop ==> !N.Finished(c, s.net, Id(p))
    ensures !IsReader(p) && s.procs[p] == Exited ==> N.Finished(c, s.net, Id(p))
    ensures IsReader(p) ==> (s.procs[p] == Loop <==> !s.net.readers[Id(p)].eof)
  {
    SettledMoves(c, s, p);
    SettledMoves(c, s, 0);
    hide N.Inv;
    hide Closes;
    assert ChildInv(c, s, p);
    assert IsReader(p) ==> OutInv(c, s, Id(p)) && ReaderProc(Id(p)) == p;
  }

  lemma SettledAct(c: N.Config, s: State, a: N.Act) returns (p: nat)
    requires Settled(Fork(c), s) && N.Next(c)(s.net, a).Some?
    ensures Moves(c, s, p) && Acts(c, s, p) == [a]
  {
    hide Inv;
    hide Step;
    hide N.DoWrite;
    hide N.DoRead;
    hide N.DoEof;
    match a
    case Write(w) =>
      p := 2 * w;
      assert Id(p) == w && !IsReader(p);
      SettledChild(c, s, p);
    case Read(j) =>
      p := 2 * j - 1;
      assert Id(p) == j && IsReader(p);
      SettledChild(c, s, p);
      if !N.CanRead(c, s.net, j) {
        SettledDrained(c, s, j);
      }
  }

  lemma SettledDrained(c: N.Config, s: State, j: nat)
    requires Settled(Fork(c), s) && N.AllFinished(c, s.net)
    ensures !IsOpen(s, Fd(In, j, WR))
  {
    forall w | 1 <= w <= c.procs
      ensures s.procs[2 * w] == Exited
    {
      assert !IsReader(2 * w) && Id(2 * w) == w && N.Finished(c, s.net, w);
      SettledChild(c, s, 2 * w);
    }
    forall u | 1 <= u <= c.procs
      ensures !s.procs[2 * u - 1].Prelude?
    {
      SettledChild(c, s, 2 * u - 1);
    }
    SettledChild(c, s, 1);
    NoWriteEndLeft(c, s, j);
  }

  lemma ForkFollows(c: N.Config)
    ensures Follows(Fork(c))
  {
    forall s, a | Settled(Fork(c), s) && N.Next(c)(s.net, a).Some?
      ensures CanFollow(Fork(c), s, a)
    {
      hide Acts;
      var p := SettledAct(c, s, a);
      hide Inv;
      hide Settled;
      assert Fork(c).next(s, p).Some? && Fork(c).acts(s, p) == [a];
    }
  }

  /** Once all readers have been told the end of their input, main prints its result. */
  lemma SettledAndReadIsFinished(c: N.Config, s: State)
    requires Settled(Fork(c), s) && N.AllRead(c, s.net)
    ensures s.main.Finished?
  {
    if !s.main.Finished? {
      SomeProcessMoves(c, s);
      var p :| Moves(c, s, p);
      SettledMoves(c, s, p);
      SettledChild(c, s, p);
      N.EofMeansFinished(c, s.net, 1);
      assert false;
    }
  }

  // ----- The results

  /** main prints `sig` when the network has been left as `n`. */
  ghost predicate IsResult(c: N.Config, n: N.Net, sig: nat)
  {
    exists run :: Finishes(c, run, n, sig)
  }

  ghost predicate Finishes(c: N.Config, run: seq<nat>, n: N.Net, sig: nat)
  {
    match Exec(Next(c), Init(c), run)
    case None => false
    case Some(s) => s.main == Finished(sig) && s.net == n
  }

  lemma FinishedMeansRead(c: N.Config, s: State)
    requires Inv(c, s) && s.main.Finished?
    ensures N.AllRead(c, s.net) && s.main.sig == N.Signature(s.net, c.procs)
  {
    hide N.Signature;
    hide N.Inv;
    hide Closes;
    forall j | 1 <= j <= c.procs
      ensures s.net.readers[j].eof
    {
      assert ChildInv(c, s, 2 * j - 1) && IsReader(2 * j - 1) && Id(2 * j - 1) == j;
    }
  }

  /** The processes leave the network exactly as the abstract network can be left. */
  lemma ForkResults(c: N.Config, n: N.Net, sig: nat)
    ensures IsResult(c, n, sig) <==> N.IsResult(c, n) && sig == N.Signature(n, c.procs)
  {
    hide Inv;
    hide Left;
    if IsResult(c, n, sig) {
      var run :| Finishes(c, run, n, sig);
      RunRefinesNet(c, run);
      FinishedMeansRead(c, Exec(Next(c), Init(c), run).value);
    }
    if N.IsResult(c, n) && sig == N.Signature(n, c.procs) {
      var acts :| Exec(N.Next(c), N.Init(c), acts) == Some(n) && N.AllRead(c, n);
      ForkImplements(c);
      ForkFollows(c);
      var run, s := Realise(Fork(c), Init(c), acts);
      SettledMoves(c, s, 0);
      SettledAndReadIsFinished(c, s);
      FinishedMeansRead(c, s);
      assert Finishes(c, run, n, sig);
    }
  }
}
