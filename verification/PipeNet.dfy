/**
 The network that racey-forkpipe.c and racey-clonepipe.c have in common, without their ways of
 starting and stopping: N writers, N bounded byte pipes and N readers.  A reader sees the end
 of its input once all writers are finished and its pipe is empty.

 Pipes follow POSIX.1-2017 (System Interfaces, write() and read()): a write of at most PIPE_BUF
 bytes happens at once when there is room for all of it, and a read takes what is there up to
 the size asked for.
 */
module PipeNet {
  import opened Mixing
  import opened Runs
  import opened Messages

  const PIPE_BUF: nat := 512

  datatype RawConfig = Config(procs: nat, maxLoop: nat, capacity: nat)
  type Config = c: RawConfig | c.procs >= 1 && c.maxLoop >= 1 && c.capacity >= PIPE_BUF
    witness Config(1, 1, PIPE_BUF)

  datatype Writer = Writer(i: nat, num: nat)
  datatype Reader = Reader(num: nat, eof: bool)

  /** Message `index` of writer `writer`. */
  datatype Msg = Msg(writer: nat, index: nat)

  /**
   Writers, readers and pipes are numbered 1..procs.  The last two components are history that
   no step reads: the messages accepted by each pipe and the chunks read from it, in order.
   */
  datatype Net = Net(writers: seq<Writer>, readers: seq<Reader>, pipes: seq<Bytes>,
                     sent: seq<seq<Msg>>, got: seq<seq<Bytes>>)

  datatype Act = Write(w: nat) | Read(j: nat)

  function Init(c: Config): Net
  {
    Net(seq(c.procs + 1, (w: nat) => Writer(0, w)), seq(c.procs + 1, (j: nat) => Reader(j, false)),
        seq(c.procs + 1, _ => []), seq(c.procs + 1, _ => []), seq(c.procs + 1, _ => []))
  }

  predicate Sized(c: Config, n: Net)
  {
    |n.writers| == |n.readers| == |n.pipes| == |n.sent| == |n.got| == c.procs + 1
  }

  predicate Finished(c: Config, n: Net, w: nat)
    requires w < |n.writers|
  {
    n.writers[w].i >= c.maxLoop
  }

  predicate AllFinished(c: Config, n: Net)
    requires Sized(c, n)
  {
    forall w :: 1 <= w <= c.procs ==> Finished(c, n, w)
  }

  function Target(c: Config, n: Net, w: nat): (j: nat)
    requires Sized(c, n)
    requires w < |n.writers|
    ensures 1 <= j <= c.procs
  {
    NumAfter(n.writers[w].num, 16) % c.procs + 1
  }

  predicate CanWrite(c: Config, n: Net, w: nat)
  {
    && Sized(c, n) && 1 <= w <= c.procs && !Finished(c, n, w)
    && |n.pipes[Target(c, n, w)]| + MESSAGE_SIZE <= c.capacity
  }

  function DoWrite(c: Config, n: Net, w: nat): Net
    requires CanWrite(c, n, w)
  {
    var j, wr := Target(c, n, w), n.writers[w];
    n.(writers := n.writers[w := Writer(wr.i + 1, Mix(NumAfter(wr.num, 16), MESSAGE_SIZE))],
       pipes := n.pipes[j := n.pipes[j] + Encode(BufferWords(wr.num, 16))],
       sent := n.sent[j := n.sent[j] + [Msg(w, wr.i)]])
  }

  /** A read that gets at least one byte. */
  predicate CanRead(c: Config, n: Net, j: nat)
  {
    Sized(c, n) && 1 <= j <= c.procs && !n.readers[j].eof && n.pipes[j] != []
  }

  function ReadCount(b: Bytes): (r: nat)
    ensures r <= |b|
  {
    if |b| <= READ_SIZE then |b| else READ_SIZE
  }

  function DoRead(c: Config, n: Net, j: nat): Net
    requires CanRead(c, n, j)
  {
    var r := ReadCount(n.pipes[j]);
    var chunk := n.pipes[j][..r];
    n.(pipes := n.pipes[j := n.pipes[j][r..]],
       readers := n.readers[j := Reader(AbsorbRead(n.readers[j].num, chunk), false)],
       got := n.got[j := n.got[j] + [chunk]])
  }

  /** An empty pipe, from which a read returns 0 once no write end is left. */
  predicate Drained(c: Config, n: Net, j: nat)
  {
    Sized(c, n) && 1 <= j <= c.procs && !n.readers[j].eof && n.pipes[j] == []
  }

  function DoEof(c: Config, n: Net, j: nat): Net
    requires Drained(c, n, j)
  {
    n.(readers := n.readers[j := Reader(Mix(n.readers[j].num, 0), true)])
  }

  function Next(c: Config): (Net, Act) -> Option<Net>
  {
    (n: Net, a: Act) =>
      match a
      case Write(w) => if CanWrite(c, n, w) then Some(DoWrite(c, n, w)) else None
      case Read(j) =>
        if CanRead(c, n, j) then Some(DoRead(c, n, j))
        else if Drained(c, n, j) && AllFinished(c, n) then Some(DoEof(c, n, j))
        else None
  }

  predicate AllRead(c: Config, n: Net)
  {
    Sized(c, n) && forall j :: 1 <= j <= c.procs ==> n.readers[j].eof
  }

  /** `n` is left behind when all readers have seen the end of their input. */
  ghost predicate IsResult(c: Config, n: Net)
  {
    exists run :: Exec(Next(c), Init(c), run) == Some(n) && AllRead(c, n)
  }

  /** main's result: sig[0] is 0, and each number read back is followed by the 4 bytes it took. */
  function Signature(n: Net, k: nat): nat
    requires 1 <= k <= |n.readers|
  {
    if k == 1 then 0 else Mix(WORD_SIZE, Mix(n.readers[k-1].num, Signature(n, k - 1)))
  }

  /** The values that mix_sig of main takes: for each reader its number and then the 4 are mixed in. */
  lemma {:induction false} SignatureIsFlat(n: Net, k: nat) returns (v: seq<nat>)
    requires 1 <= k <= |n.readers|
    ensures |v| == k && v[0] == 0
    ensures forall i :: 1 <= i < k ==>
              v[i] == (4 + (n.readers[i].num + v[i - 1] * PRIME2) % W % PRIME1 * PRIME2) % W % PRIME1
    ensures v[k - 1] == Signature(n, k)
  {
    if k == 1 {
      v := [0];
    } else {
      var front := SignatureIsFlat(n, k - 1);
      var num := n.readers[k - 1].num;
      v := front + [Signature(n, k)];
      MixFlat(num, Signature(n, k - 1));
      MixFlat(WORD_SIZE, Mix(num, Signature(n, k - 1)));
      hide Mix;
    }
  }

  // ----- What every step keeps

  /** The bytes of the messages in `msgs`. */
  function Wire(msgs: seq<Msg>): (b: Bytes)
    ensures |b| == MESSAGE_SIZE * |msgs|
  {
    if msgs == [] then []
    else Wire(msgs[..|msgs| - 1]) + MessageOf(msgs[|msgs| - 1].writer, msgs[|msgs| - 1].index)
  }

  function Concat(chunks: seq<Bytes>): Bytes
  {
    if chunks == [] then [] else Concat(chunks[..|chunks| - 1]) + chunks[|chunks| - 1]
  }

  /** The messages of writer `w` among `msgs`, in order. */
  function From(msgs: seq<Msg>, w: nat): seq<Msg>
  {
    if msgs == [] then []
    else
      var front, last := msgs[..|msgs| - 1], msgs[|msgs| - 1];
      From(front, w) + if last.writer == w then [last] else []
  }

  /** Those of the first `i` messages of writer `w` that go to reader `j`, in order. */
  function Addressed(procs: nat, w: nat, i: nat, j: nat): seq<Msg>
    requires procs >= 1
  {
    if i == 0 then []
    else Addressed(procs, w, i - 1, j) + if TargetOf(procs, w, i - 1) == j then [Msg(w, i - 1)] else []
  }

  ghost predicate WriterInv(c: Config, n: Net, w: nat)
    requires Sized(c, n) && 1 <= w <= c.procs
  {
    n.writers[w].i <= c.maxLoop && n.writers[w].num == WriterNum(w, n.writers[w].i)
  }

  /** Nothing is lost, duplicated or reordered on the way to reader `j`. */
  ghost predicate PipeInv(c: Config, n: Net, j: nat)
    requires Sized(c, n) && 1 <= j <= c.procs
  {
    && Concat(n.got[j]) + n.pipes[j] == Wire(n.sent[j])
    && (forall w :: 1 <= w <= c.procs ==> From(n.sent[j], w) == Addressed(c.procs, w, n.writers[w].i, j))
    && (forall m :: m in n.sent[j] ==> 1 <= m.writer <= c.procs)
  }

  ghost predicate FramingInv(c: Config, n: Net, j: nat)
    requires Sized(c, n) && 1 <= j <= c.procs
  {
    && |n.pipes[j]| % MESSAGE_SIZE == 0 && |n.pipes[j]| <= c.capacity
    && (forall x :: x in n.got[j] ==> |x| == 64 || |x| == 128)
  }

  ghost predicate ReaderInv(c: Config, n: Net, j: nat)
    requires Sized(c, n) && 1 <= j <= c.procs
  {
    && n.readers[j].num == (var d := Digest(j, n.got[j]); if n.readers[j].eof then Mix(d, 0) else d)
    && (n.readers[j].eof ==> AllFinished(c, n) && n.pipes[j] == [])
  }

  ghost predicate Inv(c: Config, n: Net)
  {
    && Sized(c, n)
    && (forall w :: 1 <= w <= c.procs ==> WriterInv(c, n, w))
    && (forall j :: 1 <= j <= c.procs ==> PipeInv(c, n, j) && FramingInv(c, n, j) && ReaderInv(c, n, j))
  }

  lemma InitInv(c: Config)
    ensures Inv(c, Init(c))
  {
    var n := Init(c);
    forall j | 1 <= j <= c.procs
      ensures PipeInv(c, n, j) && FramingInv(c, n, j) && ReaderInv(c, n, j)
    {
      assert Concat([]) + [] == Wire([]);
    }
  }

  lemma WireAppend(msgs: seq<Msg>, m: Msg)
    ensures Wire(msgs + [m]) == Wire(msgs) + MessageOf(m.writer, m.index)
    ensures forall w :: From(msgs + [m], w) == From(msgs, w) + if m.writer == w then [m] else []
  {
    assert (msgs + [m])[..|msgs|] == msgs;
  }

  lemma ChunkAppend(chunks: seq<Bytes>, x: Bytes)
    ensures Concat(chunks + [x]) == Concat(chunks) + x
  {
    assert (chunks + [x])[..|chunks|] == chunks;
  }

  lemma WriteKeepsWriter(c: Config, n: Net, w: nat, u: nat)
    requires CanWrite(c, n, w) && 1 <= u <= c.procs && WriterInv(c, n, u)
    ensures WriterInv(c, DoWrite(c, n, w), u)
  {
  }

  lemma WriteKeepsPipe(c: Config, n: Net, w: nat, j: nat)
    requires CanWrite(c, n, w) && 1 <= j <= c.procs && PipeInv(c, n, j) && WriterInv(c, n, w)
    ensures PipeInv(c, DoWrite(c, n, w), j)
  {
    hide Mix;
    var n', i, m := DoWrite(c, n, w), n.writers[w].i, Msg(w, n.writers[w].i);
    WireAppend(n.sent[j], m);
    assert Target(c, n, w) == TargetOf(c.procs, w, i);
    var b := Encode(BufferWords(n.writers[w].num, 16));
    assert b == MessageOf(w, i);
    assert Concat(n.got[j]) + (n.pipes[j] + b) == Wire(n.sent[j]) + b;
    WriteKeepsOrder(c, n, w, j);
  }

  lemma WriteKeepsOrder(c: Config, n: Net, w: nat, j: nat)
    requires CanWrite(c, n, w) && 1 <= j <= c.procs && PipeInv(c, n, j)
    requires Target(c, n, w) == TargetOf(c.procs, w, n.writers[w].i)
    ensures var n' := DoWrite(c, n, w);
            forall u :: 1 <= u <= c.procs ==> From(n'.sent[j], u) == Addressed(c.procs, u, n'.writers[u].i, j)
  {
    hide Mix;
    hide NumAfter;
    hide Concat;
    hide Encode;
    hide BufferWords;
    var n', m := DoWrite(c, n, w), Msg(w, n.writers[w].i);
    WireAppend(n.sent[j], m);
    hide Wire;
    forall u | 1 <= u <= c.procs
      ensures From(n'.sent[j], u) == Addressed(c.procs, u, n'.writers[u].i, j)
    {
      assert From(n.sent[j], u) == Addressed(c.procs, u, n.writers[u].i, j);
    }
  }

  lemma WriteKeepsFraming(c: Config, n: Net, w: nat, j: nat)
    requires CanWrite(c, n, w) && 1 <= j <= c.procs && FramingInv(c, n, j)
    ensures FramingInv(c, DoWrite(c, n, w), j)
  {
    hide Target;
    hide Encode;
    hide BufferWords;
    hide Mix;
    assert |DoWrite(c, n, w).pipes[j]| == |n.pipes[j]| + if j == Target(c, n, w) then MESSAGE_SIZE else 0;
  }

  lemma WriteKeepsReader(c: Config, n: Net, w: nat, j: nat)
    requires CanWrite(c, n, w) && 1 <= j <= c.procs && ReaderInv(c, n, j)
    ensures ReaderInv(c, DoWrite(c, n, w), j)
  {
    hide Mix;
    assert !Finished(c, n, w);
  }

  lemma WriteKeepsInv(c: Config, n: Net, w: nat)
    requires Inv(c, n) && CanWrite(c, n, w)
    ensures Inv(c, DoWrite(c, n, w))
  {
    forall u | 1 <= u <= c.procs
      ensures WriterInv(c, DoWrite(c, n, w), u)
    {
      WriteKeepsWriter(c, n, w, u);
    }
    forall j | 1 <= j <= c.procs
      ensures var n' := DoWrite(c, n, w); PipeInv(c, n', j) && FramingInv(c, n', j) && ReaderInv(c, n', j)
    {
      WriteKeepsPipe(c, n, w, j);
      WriteKeepsFraming(c, n, w, j);
      WriteKeepsReader(c, n, w, j);
    }
  }

  lemma ReadKeepsPipe(c: Config, n: Net, j: nat, u: nat)
    requires CanRead(c, n, j) && 1 <= u <= c.procs && PipeInv(c, n, u)
    ensures PipeInv(c, DoRead(c, n, j), u)
  {
    var r := ReadCount(n.pipes[j]);
    ChunkAppend(n.got[j], n.pipes[j][..r]);
    assert Concat(n.got[j]) + n.pipes[j][..r] + n.pipes[j][r..] == Concat(n.got[j]) + n.pipes[j];
  }

  lemma ReadKeepsReader(c: Config, n: Net, j: nat, u: nat)
    requires CanRead(c, n, j) && 1 <= u <= c.procs && FramingInv(c, n, u) && ReaderInv(c, n, u)
    ensures FramingInv(c, DoRead(c, n, j), u) && ReaderInv(c, DoRead(c, n, j), u)
  {
    hide Mix;
    hide AbsorbRead;
    hide Digest;
    DigestAppend(j, n.got[j], n.pipes[j][..ReadCount(n.pipes[j])]);
    assert AllFinished(c, n) ==> AllFinished(c, DoRead(c, n, j)) by { KeepFinished(c, n, DoRead(c, n, j)); }
  }

  lemma ReadKeepsInv(c: Config, n: Net, j: nat)
    requires Inv(c, n) && CanRead(c, n, j)
    ensures Inv(c, DoRead(c, n, j))
  {
    forall u | 1 <= u <= c.procs
      ensures var n' := DoRead(c, n, j); PipeInv(c, n', u) && FramingInv(c, n', u) && ReaderInv(c, n', u)
    {
      ReadKeepsPipe(c, n, j, u);
      ReadKeepsReader(c, n, j, u);
    }
    assert forall w :: 1 <= w <= c.procs ==> WriterInv(c, n, w) ==> WriterInv(c, DoRead(c, n, j), w);
  }

  lemma EofKeepsReader(c: Config, n: Net, j: nat, u: nat)
    requires Drained(c, n, j) && AllFinished(c, n) && 1 <= u <= c.procs
    requires PipeInv(c, n, u) && FramingInv(c, n, u) && ReaderInv(c, n, u)
    ensures var n' := DoEof(c, n, j); PipeInv(c, n', u) && FramingInv(c, n', u) && ReaderInv(c, n', u)
  {
    hide Mix;
    KeepFinished(c, n, DoEof(c, n, j));
  }

  lemma KeepFinished(c: Config, n: Net, n': Net)
    requires Sized(c, n) && Sized(c, n') && n'.writers == n.writers
    ensures AllFinished(c, n') == AllFinished(c, n)
  {
    forall w | 1 <= w <= c.procs
      ensures Finished(c, n', w) == Finished(c, n, w)
    {
    }
  }

  lemma EofKeepsInv(c: Config, n: Net, j: nat)
    requires Inv(c, n) && Drained(c, n, j) && AllFinished(c, n)
    ensures Inv(c, DoEof(c, n, j))
  {
    forall u | 1 <= u <= c.procs
      ensures var n' := DoEof(c, n, j); PipeInv(c, n', u) && FramingInv(c, n', u) && ReaderInv(c, n', u)
    {
      EofKeepsReader(c, n, j, u);
    }
    assert forall w :: 1 <= w <= c.procs ==> WriterInv(c, n, w) ==> WriterInv(c, DoEof(c, n, j), w);
  }

  lemma {:induction false} RunKeepsInv(c: Config, n: Net, run: seq<Act>)
    requires Inv(c, n) && Exec(Next(c), n, run).Some?
    ensures Inv(c, Exec(Next(c), n, run).value)
    decreases |run|
  {
    if run != [] {
      match run[0] {
        case Write(w) => WriteKeepsInv(c, n, w);
        case Read(j) => if CanRead(c, n, j) { ReadKeepsInv(c, n, j); } else { EofKeepsInv(c, n, j); }
      }
      RunKeepsInv(c, Next(c)(n, run[0]).value, run[1..]);
    }
  }

  lemma ResultInv(c: Config, n: Net)
    requires IsResult(c, n)
    ensures Inv(c, n) && AllRead(c, n)
  {
    var run :| Exec(Next(c), Init(c), run) == Some(n) && AllRead(c, n);
    InitInv(c);
    RunKeepsInv(c, Init(c), run);
  }

  lemma EofMeansFinished(c: Config, n: Net, j: nat)
    requires Inv(c, n) && 1 <= j <= c.procs
    ensures n.readers[j].eof ==> AllFinished(c, n) && n.pipes[j] == []
  {
    assert ReaderInv(c, n, j);
  }

  lemma EofNumIsSmall(c: Config, n: Net, j: nat)
    requires Inv(c, n) && 1 <= j <= c.procs && n.readers[j].eof
    ensures n.readers[j].num < PRIME1
  {
    assert ReaderInv(c, n, j);
  }

  /** The end of its input means that a reader has got every message sent to it. */
  lemma EofIsExact(c: Config, n: Net, j: nat)
    requires Inv(c, n) && 1 <= j <= c.procs && n.readers[j].eof
    ensures AllFinished(c, n) && Concat(n.got[j]) == Wire(n.sent[j])
    ensures forall w :: 1 <= w <= c.procs ==> From(n.sent[j], w) == Addressed(c.procs, w, c.maxLoop, j)
  {
    EofMeansFinished(c, n, j);
    assert PipeInv(c, n, j);
    assert Concat(n.got[j]) + [] == Concat(n.got[j]);
    forall w | 1 <= w <= c.procs
      ensures From(n.sent[j], w) == Addressed(c.procs, w, c.maxLoop, j)
    {
      assert WriterInv(c, n, w) && Finished(c, n, w);
    }
  }

  /** Every byte of every message reaches the reader it was sent to, once and in order. */
  lemma Conservation(c: Config, n: Net, j: nat)
    requires IsResult(c, n) && 1 <= j <= c.procs
    ensures Sized(c, n) && Concat(n.got[j]) == Wire(n.sent[j])
    ensures forall w :: 1 <= w <= c.procs ==> From(n.sent[j], w) == Addressed(c.procs, w, c.maxLoop, j)
    ensures forall m :: m in n.sent[j] ==> 1 <= m.writer <= c.procs
    ensures n.readers[j].num == Mix(Digest(j, n.got[j]), 0) == Fold(j, Ints(n.got[j]) + [0])
  {
    hide Mix;
    hide Fold;
    hide Ints;
    ResultInv(c, n);
    EofIsExact(c, n, j);
    EndIsFold(j, n.got[j]);
    assert PipeInv(c, n, j) && ReaderInv(c, n, j);
  }

  // ----- Arrival order and read sizes determine what a reader computes

  function Sizes(chunks: seq<Bytes>): seq<nat>
  {
    if chunks == [] then [] else Sizes(chunks[..|chunks| - 1]) + [|chunks[|chunks| - 1]|]
  }

  lemma {:induction false} SameSizesSameChunks(a: seq<Bytes>, b: seq<Bytes>)
    requires Sizes(a) == Sizes(b) && Concat(a) == Concat(b)
    ensures a == b
    decreases |a|
  {
    SizesLength(a);
    SizesLength(b);
    if a != [] {
      var a0, b0, x, y := a[..|a| - 1], b[..|b| - 1], a[|a| - 1], b[|b| - 1];
      assert Sizes(a)[|a| - 1] == |x| && Sizes(b)[|b| - 1] == |y|;
      assert |Concat(a0)| == |Concat(b0)|;
      assert Concat(a)[..|Concat(a0)|] == Concat(a0) && Concat(b)[..|Concat(b0)|] == Concat(b0);
      assert Concat(a)[|Concat(a0)|..] == x && Concat(b)[|Concat(b0)|..] == y;
      SizesLength(a0);
      SizesLength(b0);
      assert Sizes(a)[..|a| - 1] == Sizes(a0) && Sizes(b)[..|b| - 1] == Sizes(b0);
      SameSizesSameChunks(a0, b0);
      assert a == a0 + [x] && b == b0 + [y];
    }
  }

  lemma {:induction false} SizesLength(a: seq<Bytes>)
    ensures |Sizes(a)| == |a|
    decreases |a|
  {
    if a != [] {
      SizesLength(a[..|a| - 1]);
    }
  }

  lemma ArrivalsDetermineNum(c: Config, a: Net, b: Net, j: nat)
    requires IsResult(c, a) && IsResult(c, b) && 1 <= j <= c.procs
    requires |a.sent| == |b.sent| == |a.got| == |b.got| == c.procs + 1
    requires a.sent[j] == b.sent[j] && Sizes(a.got[j]) == Sizes(b.got[j])
    ensures |a.readers| == |b.readers| == c.procs + 1 && a.readers[j].num == b.readers[j].num
  {
    Conservation(c, a, j);
    Conservation(c, b, j);
    SameSizesSameChunks(a.got[j], b.got[j]);
  }

  /** A write needs room for 64 bytes and then appends the whole message to the pipe of its target. */
  lemma WriteIsExact(c: Config, n: Net, w: nat)
    requires Inv(c, n) && 1 <= w <= c.procs && n.writers[w].i < c.maxLoop
    ensures var i := n.writers[w].i;
            var j := TargetOf(c.procs, w, i);
            Next(c)(n, Write(w)) ==
              if |n.pipes[j]| + 64 <= c.capacity then
                Some(n.(writers := n.writers[w := Writer(i + 1, WriterNum(w, i + 1))],
                        pipes := n.pipes[j := n.pipes[j] + MessageOf(w, i)],
                        sent := n.sent[j := n.sent[j] + [Msg(w, i)]]))
              else None
  {
    hide Mix;
    assert WriterInv(c, n, w);
    assert Target(c, n, w) == TargetOf(c.procs, w, n.writers[w].i);
  }

  /** A read takes the bytes that are there, in order, up to 128 of them, and mixes in what it took. */
  lemma ReadIsExact(c: Config, n: Net, j: nat)
    requires CanRead(c, n, j)
    ensures var n', r := DoRead(c, n, j), if |n.pipes[j]| < 128 then |n.pipes[j]| else 128;
            var chunk := n.pipes[j][..r];
            && n' == n.(pipes := n.pipes[j := n.pipes[j][r..]], readers := n'.readers, got := n.got[j := n.got[j] + [chunk]])
            && n'.readers == n.readers[j := Reader(Fold(n.readers[j].num, [r] + Words(chunk)), false)]
  {
    ReadIsFold(n.readers[j].num, n.pipes[j][..ReadCount(n.pipes[j])]);
    hide Fold;
    hide AbsorbRead;
    hide Words;
  }

  /** Reads never cut a message: each returns one whole message or two. */
  lemma Framing(c: Config, run: seq<Act>, j: nat)
    requires Exec(Next(c), Init(c), run).Some? && 1 <= j <= c.procs
    ensures var n := Exec(Next(c), Init(c), run).value;
            Sized(c, n) && |n.pipes[j]| <= c.capacity && forall x :: x in n.got[j] ==> |x| == 64 || |x| == 128
  {
    InitInv(c);
    RunKeepsInv(c, Init(c), run);
    assert FramingInv(c, Exec(Next(c), Init(c), run).value, j);
  }
}
