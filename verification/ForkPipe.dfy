/**
 racey-forkpipe.c: the pipe network run by processes.  Each process has its own table of open
 descriptors, inherited from main at fork(), and a reader sees the end of its input when no
 process has a write end of its pipe open any more.
 */
module ForkPipe {
  import opened Mixing
  import opened Runs
  import opened Messages
  import opened PipeWorkers
  import N = PipeNet

  datatype Kind = In | Out
  datatype End = RD | WR

  /** inputs[pipe][end] or output[pipe][end]. */
  datatype Fd = Fd(kind: Kind, pipe: nat, end: End)

  /** `todo` lists the close() calls that a process has still to make before it goes on. */
  datatype Proc = Unborn | Prelude(todo: seq<Fd>) | Loop | Output | Finale(todo: seq<Fd>) | Exited

  datatype Main =
    | Forking(next: nat)
    | Closing(todo: seq<Fd>)
    | Waiting(reaped: nat)
    | Collect(i: nat, sig: nat)
    | Finished(sig: nat)
    | NoOutput(i: nat)

  /**
   Process 0 is main; process 2t-1 is reader t and process 2t is writer t.  `outs` holds what is
   in the output pipes.
   */
  datatype State = State(net: N.Net, main: Main, procs: seq<Proc>, fds: seq<set<Fd>>, outs: seq<Bytes>)

  function ReaderProc(t: nat): int { 2 * t - 1 }

  // ----- The close() loops

  datatype Sweep = Everything | ReaderStart(t: nat) | ReaderKeep(t: nat) | WriterStart | WriterKeep | MainStart | MainKeep

  /** The descriptors of pipe pair `i` that a sweep is about. */
  function Row(w: Sweep, i: nat): seq<Fd>
  {
    match w
    case Everything => [Fd(In, i, RD), Fd(In, i, WR), Fd(Out, i, RD), Fd(Out, i, WR)]
    case ReaderStart(t) =>
      if i == t then [Fd(In, i, WR), Fd(Out, i, RD)]
      else [Fd(In, i, RD), Fd(In, i, WR), Fd(Out, i, RD), Fd(Out, i, WR)]
    case ReaderKeep(t) => if i == t then [Fd(In, i, RD), Fd(Out, i, WR)] else []
    case WriterStart => [Fd(Out, i, RD), Fd(Out, i, WR)]
    case WriterKeep => [Fd(In, i, RD), Fd(In, i, WR)]
    case MainStart => [Fd(In, i, RD), Fd(In, i, WR), Fd(Out, i, WR)]
    case MainKeep => [Fd(Out, i, RD)]
  }

  function Rows(w: Sweep, i: nat, n: nat): seq<Fd>
    decreases n + 1 - i
  {
    if i > n then [] else Row(w, i) + Rows(w, i + 1, n)
  }

  function Closes(c: N.Config, w: Sweep): seq<Fd> { Rows(w, 1, c.procs) }

  function ToSet(s: seq<Fd>): set<Fd> { set x | x in s }

  ghost predicate NoDuplicates(s: seq<Fd>)
  {
    forall i, j :: 0 <= i < j < |s| ==> s[i] != s[j]
  }

  function StartOf(p: nat): Sweep { if IsReader(p) then ReaderStart(Id(p)) else WriterStart }
  function KeepOf(p: nat): Sweep { if IsReader(p) then ReaderKeep(Id(p)) else WriterKeep }

  // ----- Steps

  function Init(c: N.Config): State
  {
    State(N.Init(c), Forking(1), seq(2 * c.procs + 1, _ => Unborn),
          seq(2 * c.procs + 1, p => if p == 0 then ToSet(Closes(c, Everything)) else {}),
          seq(c.procs + 1, _ => []))
  }

  predicate Sized(c: N.Config, s: State)
  {
    N.Sized(c, s.net) && |s.procs| == |s.fds| == 2 * c.procs + 1 && |s.outs| == c.procs + 1
  }

  predicate IsOpen(s: State, fd: Fd)
  {
    exists p :: 0 <= p < |s.fds| && fd in s.fds[p]
  }

  function ExitedCount(procs: seq<Proc>): nat
  {
    if procs == [] then 0
    else ExitedCount(procs[..|procs| - 1]) + if procs[|procs| - 1] == Exited then 1 else 0
  }

  predicate MainMoves(c: N.Config, s: State)
    requires Sized(c, s)
  {
    match s.main
    case Forking(k) => 1 <= k <= 2 * c.procs
    case Closing(todo) => true
    case Waiting(k) => k == 2 * c.procs || ExitedCount(s.procs) > k
    case Collect(i, sig) =>
      i >= c.procs || |s.outs[i]| >= WORD_SIZE || (s.outs[i] == [] && !IsOpen(s, Fd(Out, i, WR)))
    case _ => false
  }

  function MainStep(c: N.Config, s: State): State
    requires Sized(c, s) && MainMoves(c, s)
  {
    match s.main
    case Forking(k) =>
      s.(procs := s.procs[k := Prelude(Closes(c, StartOf(k)))],
         fds := s.fds[k := s.fds[0]],
         main := if k == 2 * c.procs then Closing(Closes(c, MainStart)) else Forking(k + 1))
    case Closing(todo) =>
      if todo == [] then s.(main := Waiting(0))
      else s.(fds := s.fds[0 := s.fds[0] - {todo[0]}], main := Closing(todo[1..]))
    case Waiting(k) =>
      s.(main := if k == 2 * c.procs then Collect(1, 0) else Waiting(k + 1))
    case Collect(i, sig) =>
      if i >= c.procs then s.(main := Finished(sig))
      else if |s.outs[i]| >= WORD_SIZE then
        var num := DecodeWord(s.outs[i][..WORD_SIZE]);
        s.(outs := s.outs[i := s.outs[i][WORD_SIZE..]],
           main := Collect(i + 1, Mix(WORD_SIZE, Mix(num, sig))))
      else s.(main := NoOutput(i))
  }

  predicate ChildMoves(c: N.Config, s: State, p: nat)
    requires Sized(c, s) && 1 <= p <= 2 * c.procs
  {
    var t := Id(p);
    match s.procs[p]
    case Prelude(_) | Finale(_) => true
    case Loop =>
      if IsReader(p) then N.CanRead(c, s.net, t) || (N.Drained(c, s.net, t) && !IsOpen(s, Fd(In, t, WR)))
      else N.Finished(c, s.net, t) || N.CanWrite(c, s.net, t)
    case Output => |s.outs[t]| + WORD_SIZE <= c.capacity
    case _ => false
  }

  function ChildStep(c: N.Config, s: State, p: nat): State
    requires Sized(c, s) && 1 <= p <= 2 * c.procs && ChildMoves(c, s, p)
  {
    var t := Id(p);
    match s.procs[p]
    case Prelude(todo) =>
      if todo == [] then s.(procs := s.procs[p := Loop])
      else s.(fds := s.fds[p := s.fds[p] - {todo[0]}], procs := s.procs[p := Prelude(todo[1..])])
    case Loop =>
      if IsReader(p) then
        if N.CanRead(c, s.net, t) then s.(net := N.DoRead(c, s.net, t))
        else s.(net := N.DoEof(c, s.net, t), procs := s.procs[p := Output])
      else if N.Finished(c, s.net, t) then s.(procs := s.procs[p := Finale(Closes(c, WriterKeep))])
      else s.(net := N.DoWrite(c, s.net, t))
    case Output =>
      s.(outs := s.outs[t := s.outs[t] + EncodeWord(U32(s.net.readers[t].num))],
         procs := s.procs[p := Finale([Fd(In, t, RD), Fd(Out, t, WR)])])
    case Finale(todo) =>
      if todo == [] then s.(fds := s.fds[p := {}], procs := s.procs[p := Exited])
      else s.(fds := s.fds[p := s.fds[p] - {todo[0]}], procs := s.procs[p := Finale(todo[1..])])
  }

  predicate Moves(c: N.Config, s: State, p: nat)
  {
    && Sized(c, s) && p <= 2 * c.procs
    && if p == 0 then MainMoves(c, s) else ChildMoves(c, s, p)
  }

  function Step(c: N.Config, s: State, p: nat): State
    requires Moves(c, s, p)
  {
    if p == 0 then MainStep(c, s) else ChildStep(c, s, p)
  }

  function Next(c: N.Config): (State, nat) -> Option<State>
  {
    (s: State, p: nat) => if Moves(c, s, p) then Some(Step(c, s, p)) else None
  }

  // ----- What every step keeps

  /** The descriptors that process `p` has open. */
  function Table(c: N.Config, s: State, p: nat): set<Fd>
    requires p < |s.procs|
  {
    match s.procs[p]
    case Unborn | Exited => {}
    case Prelude(todo) => ToSet(todo) + ToSet(Closes(c, KeepOf(p)))
    case Loop | Output => ToSet(Closes(c, KeepOf(p)))
    case Finale(todo) => ToSet(todo)
  }

  function MainTable(c: N.Config, s: State): set<Fd>
  {
    match s.main
    case Forking(_) => ToSet(Closes(c, Everything))
    case Closing(todo) => ToSet(todo) + ToSet(Closes(c, MainKeep))
    case _ => ToSet(Closes(c, MainKeep))
  }

  ghost predicate TodoInv(c: N.Config, keep: Sweep, todo: seq<Fd>)
  {
    NoDuplicates(todo) && ToSet(todo) !! ToSet(Closes(c, keep))
  }

  ghost predicate ChildInv(c: N.Config, s: State, p: nat)
    requires Sized(c, s) && 1 <= p <= 2 * c.procs
  {
    var pr, t := s.procs[p], Id(p);
    && s.fds[p] == Table(c, s, p)
    && (pr.Prelude? ==> TodoInv(c, KeepOf(p), pr.todo))
    && (pr.Finale? ==> NoDuplicates(pr.todo) && ToSet(pr.todo) <= ToSet(Closes(c, KeepOf(p))))
    && (pr.Unborn? <==> s.main.Forking? && s.main.next <= p)
    && (IsReader(p) ==> (s.net.readers[t].eof <==> pr.Output? || pr.Finale? || pr.Exited?))
    && (!IsReader(p) ==> !pr.Output? && (pr.Finale? || pr.Exited? ==> N.Finished(c, s.net, t)))
  }

  ghost predicate MainInv(c: N.Config, s: State)
    requires Sized(c, s)
  {
    && s.procs[0] == Unborn
    && s.fds[0] == MainTable(c, s)
    && match s.main
       case Forking(k) => 1 <= k <= 2 * c.procs
       case Closing(todo) => TodoInv(c, MainKeep, todo)
       case Waiting(k) => k <= ExitedCount(s.procs) && k <= 2 * c.procs
       case Collect(i, sig) => AllExited(c, s) && 1 <= i <= c.procs && sig == N.Signature(s.net, i)
       case Finished(sig) => AllExited(c, s) && sig == N.Signature(s.net, c.procs)
       case NoOutput(_) => false
  }

  predicate AllExited(c: N.Config, s: State)
    requires Sized(c, s)
  {
    forall p :: 1 <= p <= 2 * c.procs ==> s.procs[p] == Exited
  }

  /** The output of reader `t` has been read back by main. */
  predicate Collected(c: N.Config, s: State, t: nat)
  {
    (s.main.Collect? && t < s.main.i) || (s.main.Finished? && t < c.procs)
  }

  ghost predicate OutInv(c: N.Config, s: State, t: nat)
    requires Sized(c, s) && 1 <= t <= c.procs
  {
    var pr := s.procs[ReaderProc(t)];
    s.outs[t] == if (pr.Finale? || pr.Exited?) && !Collected(c, s, t)
                 then EncodeWord(U32(s.net.readers[t].num)) else []
  }

  ghost predicate Inv(c: N.Config, s: State)
  {
    && Sized(c, s) && N.Inv(c, s.net) && MainInv(c, s)
    && (forall p :: 1 <= p <= 2 * c.procs ==> ChildInv(c, s, p))
    && (forall t :: 1 <= t <= c.procs ==> OutInv(c, s, t))
  }

  // ----- The sweeps

  lemma RowIsOwn(w: Sweep, i: nat)
    ensures NoDuplicates(Row(w, i)) && forall fd :: fd in Row(w, i) ==> fd.pipe == i
  {
  }

  lemma AppendDistinct(a: seq<Fd>, b: seq<Fd>)
    requires NoDuplicates(a) && NoDuplicates(b) && forall x :: x in a ==> x !in b
    ensures NoDuplicates(a + b)
  {
    forall x, y | 0 <= x < y < |a + b|
      ensures (a + b)[x] != (a + b)[y]
    {
      assert x < |a| <= y ==> a[x] in a && b[y - |a|] in b;
    }
  }

  lemma {:induction false} RowsIff(w: Sweep, i: nat, n: nat)
    ensures NoDuplicates(Rows(w, i, n))
    ensures forall fd :: fd in Rows(w, i, n) <==> i <= fd.pipe <= n && fd in Row(w, fd.pipe)
    decreases n + 1 - i
  {
    hide Row;
    if i <= n {
      var rest := Rows(w, i + 1, n);
      RowsIff(w, i + 1, n);
      RowIsOwn(w, i);
      AppendDistinct(Row(w, i), rest);
      assert Rows(w, i, n) == Row(w, i) + rest;
    }
  }

  predicate IsKeepFor(start: Sweep, keep: Sweep)
  {
    match start
    case ReaderStart(t) => keep == ReaderKeep(t)
    case WriterStart => keep == WriterKeep
    case MainStart => keep == MainKeep
    case _ => false
  }

  lemma RowPartition(start: Sweep, keep: Sweep, fd: Fd)
    requires IsKeepFor(start, keep)
    ensures fd in Row(Everything, fd.pipe) <==> fd in Row(start, fd.pipe) || fd in Row(keep, fd.pipe)
    ensures !(fd in Row(start, fd.pipe) && fd in Row(keep, fd.pipe))
  {
  }

  /** A process closes exactly the descriptors that it does not keep. */
  lemma StartAndKeep(c: N.Config, start: Sweep, keep: Sweep)
    requires IsKeepFor(start, keep)
    ensures TodoInv(c, keep, Closes(c, start))
    ensures ToSet(Closes(c, start)) + ToSet(Closes(c, keep)) == ToSet(Closes(c, Everything))
  {
    hide Row;
    RowsIff(start, 1, c.procs);
    RowsIff(keep, 1, c.procs);
    RowsIff(Everything, 1, c.procs);
    forall fd: Fd
      ensures fd in ToSet(Closes(c, Everything)) <==> fd in ToSet(Closes(c, start)) || fd in ToSet(Closes(c, keep))
      ensures !(fd in ToSet(Closes(c, start)) && fd in ToSet(Closes(c, keep)))
    {
      RowPartition(start, keep, fd);
    }
  }

  /** What main opens, and what each process keeps of it. */
  lemma KeptDescriptors(c: N.Config, t: nat, fd: Fd)
    requires 1 <= t <= c.procs
    ensures fd in ToSet(Closes(c, Everything)) <==> 1 <= fd.pipe <= c.procs
    ensures fd in ToSet(Closes(c, ReaderKeep(t))) <==> fd == Fd(In, t, RD) || fd == Fd(Out, t, WR)
    ensures fd in ToSet(Closes(c, WriterKeep)) <==> 1 <= fd.pipe <= c.procs && fd.kind == In
    ensures fd in ToSet(Closes(c, MainKeep)) <==> 1 <= fd.pipe <= c.procs && fd.kind == Out && fd.end == RD
  {
    hide Rows;
    RowsIff(Everything, 1, c.procs);
    RowsIff(ReaderKeep(t), 1, c.procs);
    RowsIff(WriterKeep, 1, c.procs);
    RowsIff(MainKeep, 1, c.procs);
    FdInRow(fd, Everything);
    FdInRow(fd, ReaderKeep(t));
    FdInRow(fd, WriterKeep);
    FdInRow(fd, MainKeep);
    hide Row;
  }

  lemma FdInRow(fd: Fd, w: Sweep)
    ensures w == Everything ==> fd in Row(w, fd.pipe)
    ensures w.ReaderKeep? ==> (fd in Row(w, fd.pipe) <==> fd == Fd(In, w.t, RD) || fd == Fd(Out, w.t, WR))
    ensures w == WriterKeep ==> (fd in Row(w, fd.pipe) <==> fd.kind == In)
    ensures w == MainKeep ==> (fd in Row(w, fd.pipe) <==> fd.kind == Out && fd.end == RD)
  {
    var row := Row(w, fd.pipe);
    if w == Everything {
      var k := (if fd.kind == In then 0 else 2) + if fd.end == RD then 0 else 1;
      assert row[k] == fd;
    } else if w == WriterKeep {
      assert fd.kind == In ==> row[if fd.end == RD then 0 else 1] == fd;
    }
  }

  lemma ReaderFinale(c: N.Config, t: nat)
    requires 1 <= t <= c.procs
    ensures ToSet([Fd(In, t, RD), Fd(Out, t, WR)]) == ToSet(Closes(c, ReaderKeep(t)))
  {
    RowsIff(ReaderKeep(t), 1, c.procs);
  }

  lemma CloseHead(todo: seq<Fd>, keep: set<Fd>)
    requires todo != [] && NoDuplicates(todo) && ToSet(todo) !! keep
    ensures ToSet(todo) + keep - {todo[0]} == ToSet(todo[1..]) + keep
    ensures todo[0] in ToSet(todo) && NoDuplicates(todo[1..]) && ToSet(todo[1..]) !! keep
  {
    var rest := todo[1..];
    assert todo[0] in todo;
    assert forall x :: x in todo <==> x == todo[0] || x in rest;
    assert todo[0] !in rest;
  }

  // ----- Exact end of input

  lemma InputEndKept(c: N.Config, fd: Fd)
    requires 1 <= fd.pipe <= c.procs && fd.kind == In
    ensures fd in ToSet(Closes(c, Everything)) && fd in ToSet(Closes(c, WriterKeep))
  {
    hide Rows;
    RowsIff(Everything, 1, c.procs);
    RowsIff(WriterKeep, 1, c.procs);
    var k := if fd.end == RD then 0 else 1;
    assert Row(Everything, fd.pipe)[k] == fd && Row(WriterKeep, fd.pipe)[k] == fd;
  }

  /** A writer that may still write has both ends of every input pipe open, or main has. */
  lemma WriterHoldsWriteEnds(c: N.Config, s: State, w: nat, j: nat)
    requires Inv(c, s) && 1 <= w <= c.procs && 1 <= j <= c.procs
    requires s.procs[2 * w].Unborn? || s.procs[2 * w].Prelude? || s.procs[2 * w].Loop?
    ensures IsOpen(s, Fd(In, j, WR)) && IsOpen(s, Fd(In, j, RD))
  {
    hide N.Inv;
    hide Closes;
    InputEndKept(c, Fd(In, j, WR));
    InputEndKept(c, Fd(In, j, RD));
    var p := 2 * w;
    assert ChildInv(c, s, p) && KeepOf(p) == WriterKeep;
    var holder := if s.procs[p].Unborn? then 0 else p;
    assert Fd(In, j, WR) in s.fds[holder] && Fd(In, j, RD) in s.fds[holder];
  }

  lemma ClosedMeansFinished(c: N.Config, s: State, j: nat)
    requires Inv(c, s) && 1 <= j <= c.procs && !IsOpen(s, Fd(In, j, WR))
    ensures N.AllFinished(c, s.net)
  {
    forall w | 1 <= w <= c.procs
      ensures N.Finished(c, s.net, w)
    {
      assert ChildInv(c, s, 2 * w);
      if s.procs[2 * w].Unborn? || s.procs[2 * w].Prelude? || s.procs[2 * w].Loop? {
        WriterHoldsWriteEnds(c, s, w, j);
      }
    }
  }
}
