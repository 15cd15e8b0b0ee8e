/**
 The loops of racey-forkpipe.c that open and close descriptors, over the table of the process that
 executes them.  They close what the step machine says, in that order, and leave what it says.
 */
module ForkPipeProgram {
  import opened ForkPipe
  import N = PipeNet

  class Process {
    const c: N.Config
    var open: set<Fd>
    ghost var closed: seq<Fd>

    /** The descriptors 0, 1 and 2 play no part. */
    constructor (c: N.Config)
      ensures this.c == c && open == {} && closed == []
    {
      this.c := c;
      open := {};
      closed := [];
    }

    method Pipe(kind: Kind, i: nat)
      modifies this
      ensures open == old(open) + {Fd(kind, i, RD), Fd(kind, i, WR)} && closed == old(closed)
    {
      open := open + {Fd(kind, i, RD), Fd(kind, i, WR)};
    }

    /** close() of a descriptor that is open. */
    method Close(fd: Fd)
      requires fd in open
      modifies this
      ensures open == old(open) - {fd} && closed == old(closed) + [fd]
    {
      open := open - {fd};
      closed := closed + [fd];
    }

    /** The loop of a sweep has dealt with the pipe pairs before `i`. */
    ghost predicate Swept(w: Sweep, i: nat, open0: set<Fd>, closed0: seq<Fd>)
      requires i >= 1
      reads this
    {
      open == open0 - ToSet(Rows(w, 1, i - 1)) && closed == closed0 + Rows(w, 1, i - 1)
    }

    method OpenPipes()
      requires open == {}
      modifies this
      ensures open == ToSet(Closes(c, Everything)) && closed == old(closed)
    {
      for i := 1 to c.procs + 1
        invariant open == ToSet(Rows(Everything, 1, i - 1)) && closed == old(closed)
      {
        Pipe(In, i);
        Pipe(Out, i);
        RowsGrow(Everything, 1, i);
        RowAdded(Rows(Everything, 1, i - 1), i);
      }
    }

    method ReaderCloses(threadId: nat)
      requires 1 <= threadId <= c.procs && open == ToSet(Closes(c, Everything))
      modifies this
      ensures open == ToSet(Closes(c, ReaderKeep(threadId)))
      ensures closed == old(closed) + Closes(c, ReaderStart(threadId))
    {
      hide Rows;
      ghost var w := ReaderStart(threadId);
      NoRows(w);
      StartAndKeep(c, w, ReaderKeep(threadId));
      for i := 1 to c.procs + 1
        invariant Swept(w, i, old(open), old(closed))
      {
        ghost var row := Row(w, i);
        forall k | 0 <= k < |row| ensures row[k] in open {
          IsYetToClose(w, i, c.procs, k);
        }
        if i == threadId {
          assert row[0] == Fd(In, i, WR) && row[1] == Fd(Out, i, RD);
          Close(Fd(In, i, WR));
          Close(Fd(Out, i, RD));
        } else {
          assert row[0] == Fd(In, i, RD) && row[1] == Fd(In, i, WR) && row[2] == Fd(Out, i, RD) && row[3] == Fd(Out, i, WR);
          Close(Fd(In, i, RD));
          Close(Fd(In, i, WR));
          Close(Fd(Out, i, RD));
          Close(Fd(Out, i, WR));
        }
        RowsGrow(w, 1, i);
      }
    }

    method WriterCloses()
      requires open == ToSet(Closes(c, Everything))
      modifies this
      ensures open == ToSet(Closes(c, WriterKeep)) && closed == old(closed) + Closes(c, WriterStart)
    {
      hide Rows;
      NoRows(WriterStart);
      StartAndKeep(c, WriterStart, WriterKeep);
      for i := 1 to c.procs + 1
        invariant Swept(WriterStart, i, old(open), old(closed))
      {
        ghost var row := Row(WriterStart, i);
        forall k | 0 <= k < |row| ensures row[k] in open {
          IsYetToClose(WriterStart, i, c.procs, k);
        }
        assert row[0] == Fd(Out, i, RD) && row[1] == Fd(Out, i, WR);
        Close(Fd(Out, i, RD));
        Close(Fd(Out, i, WR));
        RowsGrow(WriterStart, 1, i);
      }
    }

    method MainCloses()
      requires open == ToSet(Closes(c, Everything))
      modifies this
      ensures open == ToSet(Closes(c, MainKeep)) && closed == old(closed) + Closes(c, MainStart)
    {
      hide Rows;
      NoRows(MainStart);
      StartAndKeep(c, MainStart, MainKeep);
      for i := 1 to c.procs + 1
        invariant Swept(MainStart, i, old(open), old(closed))
      {
        ghost var row := Row(MainStart, i);
        forall k | 0 <= k < |row| ensures row[k] in open {
          IsYetToClose(MainStart, i, c.procs, k);
        }
        assert row[0] == Fd(In, i, RD) && row[1] == Fd(In, i, WR) && row[2] == Fd(Out, i, WR);
        Close(Fd(In, i, RD));
        Close(Fd(In, i, WR));
        Close(Fd(Out, i, WR));
        RowsGrow(MainStart, 1, i);
      }
    }

    method ReaderEnds(threadId: nat)
      requires 1 <= threadId <= c.procs && open == ToSet(Closes(c, ReaderKeep(threadId)))
      modifies this
      ensures open == {} && closed == old(closed) + [Fd(In, threadId, RD), Fd(Out, threadId, WR)]
    {
      ReaderFinale(c, threadId);
      assert Fd(In, threadId, RD) in [Fd(In, threadId, RD), Fd(Out, threadId, WR)];
      assert Fd(Out, threadId, WR) in [Fd(In, threadId, RD), Fd(Out, threadId, WR)];
      Close(Fd(In, threadId, RD));
      Close(Fd(Out, threadId, WR));
    }

    method WriterEnds()
      requires open == ToSet(Closes(c, WriterKeep))
      modifies this
      ensures open == {} && closed == old(closed) + Closes(c, WriterKeep)
    {
      hide Rows;
      NoRows(WriterKeep);
      for i := 1 to c.procs + 1
        invariant Swept(WriterKeep, i, old(open), old(closed))
      {
        ghost var row := Row(WriterKeep, i);
        forall k | 0 <= k < |row| ensures row[k] in open {
          IsYetToClose(WriterKeep, i, c.procs, k);
        }
        assert row[0] == Fd(In, i, RD) && row[1] == Fd(In, i, WR);
        Close(Fd(In, i, RD));
        Close(Fd(In, i, WR));
        RowsGrow(WriterKeep, 1, i);
      }
    }
  }

  lemma NoRows(w: Sweep)
    ensures Rows(w, 1, 0) == []
  {
  }

  /** The lists of the step machine grow at their end as the loops do. */
  lemma {:induction false} RowsGrow(w: Sweep, i: nat, n: nat)
    requires 1 <= i <= n
    ensures Rows(w, i, n) == Rows(w, i, n - 1) + Row(w, n)
    decreases n - i
  {
    hide Row;
    if i < n {
      RowsGrow(w, i + 1, n);
      assert Row(w, i) + (Rows(w, i + 1, n - 1) + Row(w, n)) == (Row(w, i) + Rows(w, i + 1, n - 1)) + Row(w, n);
    } else {
      assert Rows(w, n + 1, n) == [] && Rows(w, n, n - 1) == [];
      assert Row(w, n) + [] == [] + Row(w, n);
    }
  }

  lemma RowAdded(before: seq<Fd>, i: nat)
    ensures ToSet(before + Row(Everything, i))
         == ToSet(before) + {Fd(In, i, RD), Fd(In, i, WR)} + {Fd(Out, i, RD), Fd(Out, i, WR)}
  {
    var row := Row(Everything, i);
    assert row[0] == Fd(In, i, RD) && row[1] == Fd(In, i, WR) && row[2] == Fd(Out, i, RD) && row[3] == Fd(Out, i, WR);
  }

  /** What a sweep closes next is in its list and has not been closed yet. */
  lemma IsYetToClose(w: Sweep, i: nat, n: nat, k: nat)
    requires 1 <= i <= n && k < |Row(w, i)|
    ensures Row(w, i)[k] in ToSet(Rows(w, 1, n)) && Row(w, i)[k] !in ToSet(Rows(w, 1, i - 1))
  {
    hide Row;
    hide Rows;
    RowsIff(w, 1, n);
    RowsIff(w, 1, i - 1);
    RowIsOwn(w, i);
    assert Row(w, i)[k] in Row(w, i);
  }
}
