/**
 What the pipe programs put on the wire: 64-byte messages of sixteen ints, read back in pieces
 of up to 128 bytes.
 */
module Messages {
  import opened Mixing

  type Byte = b: nat | b < 256
  type Bytes = seq<Byte>
  type Word = x: nat | x < W

  const MESSAGE_SIZE := 64
  const READ_SIZE := 128
  const WORD_SIZE := 4

  // ----- ints as bytes, least significant byte first

  function EncodeWord(x: Word): (b: Bytes)
    ensures |b| == WORD_SIZE
  {
    [x % 256, x / 256 % 256, x / 65536 % 256, x / 16777216]
  }

  function DecodeWord(b: Bytes): Word
    requires |b| == WORD_SIZE
  {
    (b[0] as int) + 256 * (b[1] as int) + 65536 * (b[2] as int) + 16777216 * (b[3] as int)
  }

  lemma WordRoundTrip(x: Word)
    ensures DecodeWord(EncodeWord(x)) == x
  {
    assert x / 65536 == x / 256 / 256;
    assert x / 16777216 == x / 65536 / 256;
  }

  function Encode(words: seq<Word>): (b: Bytes)
    ensures |b| == WORD_SIZE * |words|
  {
    if words == [] then [] else EncodeWord(words[0]) + Encode(words[1..])
  }

  /** The r / sizeof(int) ints in a buffer of r bytes; an incomplete last int is ignored. */
  function Words(b: Bytes): (words: seq<Word>)
    ensures |words| == |b| / WORD_SIZE
  {
    if |b| < WORD_SIZE then [] else [DecodeWord(b[..WORD_SIZE])] + Words(b[WORD_SIZE..])
  }

  lemma {:induction false} WordsRoundTrip(words: seq<Word>)
    ensures Words(Encode(words)) == words
  {
    if words != [] {
      WordRoundTrip(words[0]);
      WordsRoundTrip(words[1..]);
      assert Encode(words)[..WORD_SIZE] == EncodeWord(words[0]);
      assert Encode(words)[WORD_SIZE..] == Encode(words[1..]);
    }
  }

  lemma WordsStep(b: Bytes)
    ensures |b| < WORD_SIZE ==> Words(b) == []
    ensures |b| >= WORD_SIZE ==> Words(b) == [DecodeWord(b[..WORD_SIZE])] + Words(b[WORD_SIZE..])
  {
  }

  lemma {:induction false} WordsAppend(a: Bytes, b: Bytes)
    requires |a| % WORD_SIZE == 0
    ensures Words(a + b) == Words(a) + Words(b)
  {
    hide DecodeWord;
    hide Words;
    WordsStep(a);
    if a == [] {
      assert a + b == b;
    } else {
      WordsAppend(a[WORD_SIZE..], b);
      SplitAppend(a, b, WORD_SIZE);
      WordsStep(a + b);
    }
  }

  lemma SplitAppend(a: Bytes, b: Bytes, k: nat)
    requires k <= |a|
    ensures (a + b)[..k] == a[..k] && (a + b)[k..] == a[k..] + b
  {
    assert (a + b)[..k] == a[..k];
    assert (a + b)[k..] == a[k..] + b;
  }

  /** The ints of a buffer are where they should be, least significant byte first. */
  lemma {:induction false} IntsAt(b: Bytes, k: nat)
    requires 4 * k + 4 <= |b|
    ensures k < |Words(b)|
    ensures Words(b)[k] == (b[4 * k] as int) + 256 * (b[4 * k + 1] as int)
                           + 65536 * (b[4 * k + 2] as int) + 16777216 * (b[4 * k + 3] as int)
  {
    if k > 0 {
      IntsAt(b[WORD_SIZE..], k - 1);
    }
  }

  /** A reader's `num` survives its output pipe. */
  lemma NumRoundTrip(num: nat, out: Bytes)
    requires num < PRIME1 && out == EncodeWord(U32(num))
    ensures |out| == WORD_SIZE && DecodeWord(out[..WORD_SIZE]) == num
  {
    hide EncodeWord;
    hide DecodeWord;
    WordRoundTrip(U32(num));
    assert out[..WORD_SIZE] == out;
  }

  // ----- A writer's messages

  /** `num` after the first `k` ints of the buffer have been computed from `num`. */
  function NumAfter(num: nat, k: nat): nat
  {
    if k == 0 then num else Mix(Mix(NumAfter(num, k - 1), (k - 1) * PRIME1), PRIME2 / k)
  }

  function BufferWords(num: nat, k: nat): (words: seq<Word>)
    ensures |words| == k
  {
    if k == 0 then [] else BufferWords(num, k - 1) + [NumAfter(num, k)]
  }

  lemma {:induction false} BufferAt(num: nat, n: nat, k: nat)
    requires k < n
    ensures BufferWords(num, n)[k] == NumAfter(num, k + 1)
  {
    hide Mix;
    if k < n - 1 {
      BufferAt(num, n - 1, k);
    }
  }

  /** `y` is `x` with k * PRIME1 and then PRIME2 / (k + 1) mixed in, in plain arithmetic. */
  predicate IsNext(x: nat, k: nat, y: nat)
  {
    y == ((x + k * PRIME1 * PRIME2) % W % PRIME1 + PRIME2 / (k + 1) * PRIME2) % W % PRIME1
  }

  /** Entry `k` of the buffer comes from the one before it, or from `num`. */
  lemma BufferIsFlat(num: nat, k: nat)
    requires k < 16
    ensures var words := BufferWords(num, 16);
            var x := if k == 0 then num else words[k - 1];
            && words[k] == ((x + k * PRIME1 * PRIME2) % W % PRIME1 + PRIME2 / (k + 1) * PRIME2) % W % PRIME1
            && IsNext(x, k, words[k])
  {
    hide Mix;
    BufferAt(num, 16, k);
    if k > 0 {
      BufferAt(num, 16, k - 1);
    }
    var x := NumAfter(num, k);
    MixFlat(x, k * PRIME1);
    MixFlat(Mix(x, k * PRIME1), PRIME2 / (k + 1));
  }

  /** The int buffer of a writer is filled from its `num`, which ends up in the last entry. */
  method FillBuffer(buffer: array<Word>, n: nat) returns (num: nat)
    requires buffer.Length == 16
    modifies buffer
    ensures buffer[..] == BufferWords(n, 16) && num == NumAfter(n, 16) && num == buffer[15]
    ensures IsNext(n, 0, buffer[0]) && forall k :: 1 <= k < 16 ==> IsNext(buffer[k - 1], k, buffer[k])
  {
    hide IsNext;
    hide Mix;
    hide NumAfter;
    num := n;
    FillNothing(n);
    for k := 0 to buffer.Length
      invariant num == NumAfter(n, k) && buffer[..k] == BufferWords(n, k)
    {
      FillOne(n, k);
      num := Mix(num, k * PRIME1);
      num := Mix(num, PRIME2 / (k + 1));
      buffer[k] := num;
      assert buffer[..k + 1] == buffer[..k] + [num];
    }
    assert buffer[..] == buffer[..16];
    ghost var words := buffer[..];
    FilledIsFlat(n, words);
    forall k | 1 <= k < 16
      ensures IsNext(buffer[k - 1], k, buffer[k])
    {
      assert IsNext(words[k - 1], k, words[k]);
    }
  }

  lemma FillNothing(n: nat)
    ensures NumAfter(n, 0) == n && BufferWords(n, 0) == []
  {
  }

  lemma FillOne(n: nat, k: nat)
    ensures NumAfter(n, k + 1) == Mix(Mix(NumAfter(n, k), k * PRIME1), PRIME2 / (k + 1))
    ensures BufferWords(n, k + 1) == BufferWords(n, k) + [NumAfter(n, k + 1)]
  {
    hide Mix;
  }

  lemma FilledIsFlat(n: nat, words: seq<Word>)
    requires words == BufferWords(n, 16)
    ensures words[15] == NumAfter(n, 16)
    ensures IsNext(n, 0, words[0]) && forall k :: 1 <= k < 16 ==> IsNext(words[k - 1], k, words[k])
  {
    hide IsNext;
    hide NumAfter;
    hide BufferWords;
    BufferAt(n, 16, 15);
    BufferIsFlat(n, 0);
    forall k | 1 <= k < 16
      ensures IsNext(words[k - 1], k, words[k])
    {
      BufferIsFlat(n, k);
    }
  }

  /** `num` of writer `w` before it computes message `i`; write() has returned 64 for the earlier ones. */
  function WriterNum(w: nat, i: nat): nat
  {
    if i == 0 then w else Mix(NumAfter(WriterNum(w, i - 1), 16), MESSAGE_SIZE)
  }

  function MessageOf(w: nat, i: nat): (b: Bytes)
    ensures |b| == MESSAGE_SIZE
  {
    Encode(BufferWords(WriterNum(w, i), 16))
  }

  function TargetOf(procs: nat, w: nat, i: nat): (j: nat)
    requires procs >= 1
    ensures 1 <= j <= procs
  {
    NumAfter(WriterNum(w, i), 16) % procs + 1
  }

  lemma MessageWords(w: nat, i: nat)
    ensures Words(MessageOf(w, i)) == BufferWords(WriterNum(w, i), 16)
  {
    WordsRoundTrip(BufferWords(WriterNum(w, i), 16));
    hide BufferWords;
  }

  /**
   The ints of message `i` of writer `w` in plain arithmetic: the first comes from `w`, or from the
   last int of the message before and the 64 that write() returned, each other from the one before it.
   */
  lemma MessageIsFlat(w: nat, i: nat, k: nat)
    requires k < 16
    ensures |Words(MessageOf(w, i))| == 16 && (i > 0 ==> |Words(MessageOf(w, i - 1))| == 16)
    ensures var words := Words(MessageOf(w, i));
            var x := if k > 0 then words[k - 1] else if i == 0 then w
                     else (Words(MessageOf(w, i - 1))[15] + 64 * PRIME2) % W % PRIME1;
            IsNext(x, k, words[k])
  {
    hide IsNext;
    hide Mix;
    hide MessageOf;
    hide Words;
    MessageWords(w, i);
    BufferIsFlat(WriterNum(w, i), k);
    if i > 0 {
      MessageWords(w, i - 1);
      BufferAt(WriterNum(w, i - 1), 16, 15);
      MixFlat(NumAfter(WriterNum(w, i - 1), 16), 64);
    }
  }

  /** A message goes to the reader that its last int selects. */
  lemma TargetIsLastInt(procs: nat, w: nat, i: nat)
    requires procs >= 1
    ensures |Words(MessageOf(w, i))| == 16 && TargetOf(procs, w, i) == Words(MessageOf(w, i))[15] % procs + 1
  {
    hide Mix;
    hide Words;
    hide MessageOf;
    MessageWords(w, i);
    BufferAt(WriterNum(w, i), 16, 15);
  }

  /** The writer loop with write() replaced by a log of what it was asked to write. */
  method WriterLoop(threadId: nat, procs: nat, maxLoop: nat) returns (log: seq<(nat, Bytes)>)
    requires procs >= 1
    ensures |log| == maxLoop
    ensures forall i :: 0 <= i < maxLoop ==> log[i] == (TargetOf(procs, threadId, i), MessageOf(threadId, i))
    ensures forall i :: 0 <= i < maxLoop ==> |Words(log[i].1)| == 16 && log[i].0 == Words(log[i].1)[15] % procs + 1
  {
    hide Mix;
    hide NumAfter;
    hide BufferWords;
    hide Encode;
    hide Words;
    log := [];
    var num := threadId;
    var buffer := new Word[16];
    for i := 0 to maxLoop
      invariant |log| == i && num == WriterNum(threadId, i)
      invariant forall x :: 0 <= x < i ==> log[x] == (TargetOf(procs, threadId, x), MessageOf(threadId, x))
    {
      num := FillBuffer(buffer, num);
      var target := num % procs + 1;
      log := log + [(target, Encode(buffer[..]))];
      num := Mix(num, MESSAGE_SIZE);
    }
    forall i | 0 <= i < maxLoop
      ensures |Words(log[i].1)| == 16 && log[i].0 == Words(log[i].1)[15] % procs + 1
    {
      TargetIsLastInt(procs, threadId, i);
    }
  }

  // ----- A reader's digest

  function Absorb(num: nat, words: seq<Word>): nat
  {
    if words == [] then num else Mix(Absorb(num, words[..|words| - 1]), words[|words| - 1])
  }

  /** One successful read(): its result, then its ints. */
  function AbsorbRead(num: nat, chunk: Bytes): nat
  {
    Absorb(Mix(num, |chunk|), Words(chunk))
  }

  function Digest(num: nat, chunks: seq<Bytes>): nat
  {
    if chunks == [] then num
    else AbsorbRead(Digest(num, chunks[..|chunks| - 1]), chunks[|chunks| - 1])
  }

  /** What a reader mixes in: of each chunk its length, which read() returned, and then its ints. */
  function Ints(chunks: seq<Bytes>): seq<nat>
  {
    if chunks == [] then []
    else Ints(chunks[..|chunks| - 1]) + ([|chunks[|chunks| - 1]|] + Words(chunks[|chunks| - 1]))
  }

  lemma {:induction false} AbsorbIsFold(num: nat, words: seq<Word>)
    ensures Absorb(num, words) == Fold(num, words)
    decreases |words|
  {
    hide Mix;
    if words != [] {
      var front, last := words[..|words| - 1], words[|words| - 1];
      AbsorbIsFold(num, front);
      FoldOne(num, front, last);
      assert words == front + [last];
    }
  }

  lemma ReadIsFold(num: nat, chunk: Bytes)
    ensures AbsorbRead(num, chunk) == Fold(num, [|chunk|] + Words(chunk))
  {
    hide Mix;
    AbsorbIsFold(Mix(num, |chunk|), Words(chunk));
    FoldOne(num, [], |chunk|);
    assert [] + [|chunk|] == [|chunk|];
    FoldAppend(num, [|chunk|], Words(chunk));
  }

  /** A digest is the plain fold of the read sizes and the ints. */
  lemma {:induction false} DigestIsFold(num: nat, chunks: seq<Bytes>)
    ensures Digest(num, chunks) == Fold(num, Ints(chunks))
    decreases |chunks|
  {
    hide AbsorbRead;
    hide Words;
    if chunks != [] {
      var front, last := chunks[..|chunks| - 1], chunks[|chunks| - 1];
      DigestIsFold(num, front);
      ReadIsFold(Digest(num, front), last);
      FoldAppend(num, Ints(front), [|last|] + Words(last));
    }
  }

  /** The same with the 0 that read() returns at the end of the input. */
  lemma EndIsFold(num: nat, chunks: seq<Bytes>)
    ensures Mix(Digest(num, chunks), 0) == Fold(num, Ints(chunks) + [0])
  {
    hide Mix;
    DigestIsFold(num, chunks);
    FoldOne(num, Ints(chunks), 0);
  }

  lemma DigestNothing(num: nat)
    ensures Digest(num, []) == num
  {
  }

  lemma DigestAppend(num: nat, chunks: seq<Bytes>, x: Bytes)
    ensures Digest(num, chunks + [x]) == AbsorbRead(Digest(num, chunks), x)
  {
    assert (chunks + [x])[..|chunks|] == chunks;
  }

  method MixRead(n: nat, chunk: Bytes) returns (num: nat)
    ensures num == AbsorbRead(n, chunk) && num == Fold(n, [|chunk|] + Words(chunk))
  {
    hide Mix;
    ReadIsFold(n, chunk);
    var numbers := Words(chunk);
    num := Mix(n, |chunk|);
    for k := 0 to |chunk| / WORD_SIZE
      invariant num == Absorb(Mix(n, |chunk|), numbers[..k])
    {
      num := Mix(num, numbers[k]);
      assert numbers[..k + 1][..k] == numbers[..k];
    }
    assert numbers[..|chunk| / WORD_SIZE] == numbers;
  }
}
