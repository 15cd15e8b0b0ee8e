/** The abstract network makes only finitely many steps. */
module PipeMeasure {
  import opened Messages
  import opened PipeNet
  import opened Sums

  function WritesLeft(c: Config, n: Net): seq<int>
  {
    seq(|n.writers|, w requires 0 <= w < |n.writers| =>
      if w == 0 then 0 else 65 * (c.maxLoop - n.writers[w].i))
  }

  function BytesLeft(n: Net): seq<int>
  {
    seq(|n.pipes|, j requires 0 <= j < |n.pipes| => |n.pipes[j]|)
  }

  function EofsLeft(n: Net): seq<int>
  {
    seq(|n.readers|, j requires 0 <= j < |n.readers| => if n.readers[j].eof then 0 else 1)
  }

  /** A message weighs more than its 64 bytes, so that writing it makes the total smaller. */
  function NetLeft(c: Config, n: Net): int
  {
    Sum(WritesLeft(c, n)) + Sum(BytesLeft(n)) + Sum(EofsLeft(n))
  }

  lemma WriteDecreases(c: Config, n: Net, w: nat)
    requires CanWrite(c, n, w)
    ensures NetLeft(c, DoWrite(c, n, w)) == NetLeft(c, n) - 1
  {
    hide Encode;
    hide BufferWords;
    hide NumAfter;
    var n', j := DoWrite(c, n, w), Target(c, n, w);
    SumChange(WritesLeft(c, n), WritesLeft(c, n'), w);
    SumChange(BytesLeft(n), BytesLeft(n'), j);
    assert EofsLeft(n') == EofsLeft(n);
  }

  lemma ReadDecreases(c: Config, n: Net, j: nat)
    requires CanRead(c, n, j)
    ensures NetLeft(c, DoRead(c, n, j)) < NetLeft(c, n)
  {
    hide AbsorbRead;
    var n' := DoRead(c, n, j);
    SumChange(BytesLeft(n), BytesLeft(n'), j);
    assert WritesLeft(c, n') == WritesLeft(c, n);
    assert EofsLeft(n') == EofsLeft(n);
  }

  lemma EofDecreases(c: Config, n: Net, j: nat)
    requires Drained(c, n, j)
    ensures NetLeft(c, DoEof(c, n, j)) == NetLeft(c, n) - 1
  {
    var n' := DoEof(c, n, j);
    SumChange(EofsLeft(n), EofsLeft(n'), j);
    assert WritesLeft(c, n') == WritesLeft(c, n);
    assert BytesLeft(n') == BytesLeft(n);
  }

  lemma NetLeftNonNegative(c: Config, n: Net)
    requires Inv(c, n)
    ensures NetLeft(c, n) >= 0
  {
    forall w | 0 <= w < |n.writers|
      ensures WritesLeft(c, n)[w] >= 0
    {
      assert w > 0 ==> WriterInv(c, n, w);
    }
    SumNonNegative(WritesLeft(c, n));
    SumNonNegative(BytesLeft(n));
    SumNonNegative(EofsLeft(n));
  }
}
