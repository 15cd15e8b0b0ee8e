/**
 racey-readfile.c: the threads share one open file description, so each read() hands out the next
 chunk of the file to whichever thread asks.  Reads of a regular file are atomic with respect to
 the offset (POSIX.1-2017, System Interfaces, section 2.9.7), and the file does not change.
 */
module ReadFile {
  import opened Mixing
  import opened Runs
  import opened Messages
  import opened Shared

  const BUFFER_SIZE: nat := 256

  datatype Pc = Arrive | Wait | Read | Store | Done
  datatype Thread = Thread(pc: Pc, num: nat)

  /** A successful read(): which thread made it and what it got. */
  datatype Handout = Handout(t: nat, chunk: Bytes)

  /** `log` is history: the reads that returned something, in order; `zeros` counts the others. */
  datatype State = State(offset: nat, arrived: nat, sig: seq<nat>, threads: seq<Thread>,
                         log: seq<Handout>, zeros: seq<nat>)

  function Init(procs: nat): State
  {
    State(0, 0, InitialSig(procs), seq(procs + 1, (t: nat) => Thread(Arrive, t)), [], seq(procs + 1, _ => 0))
  }

  predicate Sized(procs: nat, file: Bytes, s: State)
  {
    |s.sig| == |s.threads| == |s.zeros| == procs + 1 && s.offset <= |file|
  }

  function NextChunk(file: Bytes, offset: nat): (b: Bytes)
    requires offset <= |file|
    ensures |b| <= BUFFER_SIZE && offset + |b| <= |file|
  {
    if |file| - offset <= BUFFER_SIZE then file[offset..] else file[offset..offset + BUFFER_SIZE]
  }

  predicate Moves(procs: nat, file: Bytes, s: State, t: nat)
  {
    && Sized(procs, file, s) && 1 <= t <= procs
    && s.threads[t].pc != Done
    && (s.threads[t].pc == Wait ==> s.arrived == procs)
  }

  function Step(procs: nat, file: Bytes, s: State, t: nat): State
    requires Moves(procs, file, s, t)
  {
    var th := s.threads[t];
    match th.pc
    case Arrive => s.(arrived := s.arrived + 1, threads := s.threads[t := th.(pc := Wait)])
    case Wait => s.(threads := s.threads[t := th.(pc := Read)])
    case Read =>
      var chunk := NextChunk(file, s.offset);
      if chunk != [] then
        s.(offset := s.offset + |chunk|, log := s.log + [Handout(t, chunk)],
           threads := s.threads[t := th.(num := AbsorbRead(th.num, chunk))])
      else
        s.(zeros := s.zeros[t := s.zeros[t] + 1], threads := s.threads[t := Thread(Store, Mix(th.num, 0))])
    case Store => s.(sig := s.sig[t := th.num], threads := s.threads[t := th.(pc := Done)])
  }

  function Next(procs: nat, file: Bytes): (State, nat) -> Option<State>
  {
    (s: State, t: nat) => if Moves(procs, file, s, t) then Some(Step(procs, file, s, t)) else None
  }

  predicate AllDone(procs: nat, s: State)
  {
    |s.threads| == procs + 1 && forall t :: 1 <= t <= procs ==> s.threads[t].pc == Done
  }

  // ----- What every step keeps

  function Contents(log: seq<Handout>): Bytes
  {
    if log == [] then [] else Contents(log[..|log| - 1]) + log[|log| - 1].chunk
  }

  /** What thread `t` has been handed. */
  function ChunksOf(log: seq<Handout>, t: nat): seq<Bytes>
  {
    if log == [] then []
    else ChunksOf(log[..|log| - 1], t) + if log[|log| - 1].t == t then [log[|log| - 1].chunk] else []
  }

  ghost predicate ThreadInv(s: State, t: nat)
    requires t < |s.sig| == |s.threads| == |s.zeros|
  {
    var th, d := s.threads[t], Digest(t, ChunksOf(s.log, t));
    && (th.pc in {Arrive, Wait, Read} ==> th.num == d && s.zeros[t] == 0)
    && (th.pc in {Store, Done} ==> th.num == Mix(d, 0) && s.zeros[t] == 1)
    && (th.pc == Done ==> s.sig[t] == th.num)
  }

  ghost predicate Inv(procs: nat, file: Bytes, s: State)
  {
    && Sized(procs, file, s)
    && (forall t :: 1 <= t <= procs ==> ThreadInv(s, t))
    && Contents(s.log) == file[..s.offset]
    && (forall i :: 0 <= i < |s.log| ==> 1 <= s.log[i].t <= procs && 0 < |s.log[i].chunk| <= BUFFER_SIZE)
    && (forall i :: 0 <= i < |s.log| && (i < |s.log| - 1 || s.offset < |file|) ==> |s.log[i].chunk| == BUFFER_SIZE)
    && (forall t :: 1 <= t <= procs && s.threads[t].pc in {Store, Done} ==> s.offset == |file|)
  }

  lemma InitInv(procs: nat, file: Bytes)
    ensures Inv(procs, file, Init(procs))
  {
    assert file[..0] == [];
  }

  lemma LogAppend(log: seq<Handout>, h: Handout)
    ensures Contents(log + [h]) == Contents(log) + h.chunk
  {
    assert (log + [h])[..|log|] == log;
  }

  lemma ChunksAppend(log: seq<Handout>, h: Handout, u: nat)
    ensures ChunksOf(log + [h], u) == if h.t == u then ChunksOf(log, u) + [h.chunk] else ChunksOf(log, u)
  {
    assert (log + [h])[..|log|] == log;
    assert ChunksOf(log, u) + [] == ChunksOf(log, u);
  }

  lemma ReadStep(procs: nat, file: Bytes, s: State, t: nat)
    requires Moves(procs, file, s, t) && s.threads[t].pc == Read
    ensures var s', chunk := Step(procs, file, s, t), NextChunk(file, s.offset);
            && Sized(procs, file, s') && s'.sig == s.sig && s'.offset == s.offset + |chunk|
            && (forall u :: 0 <= u <= procs && u != t ==> s'.threads[u] == s.threads[u] && s'.zeros[u] == s.zeros[u])
            && (if chunk == [] then
                  && s'.log == s.log && s'.zeros[t] == s.zeros[t] + 1
                  && s'.threads[t] == Thread(Store, Mix(s.threads[t].num, 0))
                else
                  && s'.log == s.log + [Handout(t, chunk)] && s'.zeros[t] == s.zeros[t]
                  && s'.threads[t] == Thread(Read, AbsorbRead(s.threads[t].num, chunk)))
  {
    hide Mix;
    hide AbsorbRead;
  }

  lemma ReadKeepsThread(procs: nat, file: Bytes, s: State, t: nat, u: nat)
    requires Moves(procs, file, s, t) && s.threads[t].pc == Read && 1 <= u <= procs && ThreadInv(s, u)
    ensures Sized(procs, file, Step(procs, file, s, t)) && ThreadInv(Step(procs, file, s, t), u)
  {
    var chunk := NextChunk(file, s.offset);
    ReadStep(procs, file, s, t);
    hide Step;
    hide NextChunk;
    hide Mix;
    hide AbsorbRead;
    if chunk != [] {
      ChunksAppend(s.log, Handout(t, chunk), u);
      DigestAppend(t, ChunksOf(s.log, t), chunk);
      hide ChunksOf;
      hide Digest;
    }
  }

  lemma OtherKeepsThread(procs: nat, file: Bytes, s: State, t: nat, u: nat)
    requires Moves(procs, file, s, t) && s.threads[t].pc != Read && 1 <= u <= procs && ThreadInv(s, u)
    requires ThreadInv(s, t)
    ensures var s' := Step(procs, file, s, t); Sized(procs, file, s') && ThreadInv(s', u)
  {
    hide Mix;
  }

  lemma ReadKeepsLog(procs: nat, file: Bytes, s: State, t: nat)
    requires Inv(procs, file, s) && Moves(procs, file, s, t) && s.threads[t].pc == Read
    ensures var s' := Step(procs, file, s, t);
            && Contents(s'.log) == file[..s'.offset]
            && (forall i :: 0 <= i < |s'.log| ==> 1 <= s'.log[i].t <= procs && 0 < |s'.log[i].chunk| <= BUFFER_SIZE)
            && (forall i :: 0 <= i < |s'.log| && (i < |s'.log| - 1 || s'.offset < |file|) ==>
                  |s'.log[i].chunk| == BUFFER_SIZE)
  {
    hide ThreadInv;
    hide Contents;
    hide AbsorbRead;
    hide Mix;
    hide Step;
    var chunk := NextChunk(file, s.offset);
    ReadStep(procs, file, s, t);
    if chunk != [] {
      LogAppend(s.log, Handout(t, chunk));
      assert file[..s.offset] + chunk == file[..s.offset + |chunk|];
    }
  }

  lemma StepKeepsInv(procs: nat, file: Bytes, s: State, t: nat)
    requires Inv(procs, file, s) && Moves(procs, file, s, t)
    ensures Inv(procs, file, Step(procs, file, s, t))
  {
    var s' := Step(procs, file, s, t);
    hide ThreadInv;
    hide AbsorbRead;
    hide Mix;
    forall u | 1 <= u <= procs
      ensures Sized(procs, file, s') && ThreadInv(s', u)
    {
      if s.threads[t].pc == Read {
        ReadKeepsThread(procs, file, s, t, u);
      } else {
        OtherKeepsThread(procs, file, s, t, u);
      }
    }
    if s.threads[t].pc == Read {
      ReadKeepsLog(procs, file, s, t);
    }
  }

  lemma {:induction false} RunKeepsInv(procs: nat, file: Bytes, s: State, run: seq<nat>)
    requires Inv(procs, file, s) && Exec(Next(procs, file), s, run).Some?
    ensures Inv(procs, file, Exec(Next(procs, file), s, run).value)
    decreases |run|
  {
    hide Inv;
    if run != [] {
      StepKeepsInv(procs, file, s, run[0]);
      RunKeepsInv(procs, file, Step(procs, file, s, run[0]), run[1..]);
    }
  }

  /**
   At any time the chunks handed out, in order, are the file up to the shared offset: no byte is
   skipped or handed out twice, and only the last chunk of the file can be short.
   */
  lemma ChunksPartitionFile(procs: nat, file: Bytes, run: seq<nat>)
    requires Exec(Next(procs, file), Init(procs), run).Some?
    ensures var s := Exec(Next(procs, file), Init(procs), run).value;
            && s.offset <= |file| && Contents(s.log) == file[..s.offset]
            && (forall i :: 0 <= i < |s.log| ==> 0 < |s.log[i].chunk| <= 256)
            && (forall i :: 0 <= i < |s.log| && (i < |s.log| - 1 || s.offset < |file|) ==>
                  |s.log[i].chunk| == 256)
  {
    InitInv(procs, file);
    RunKeepsInv(procs, file, Init(procs), run);
  }

  /** In a complete run the whole file is handed out, and each thread sees its end exactly once. */
  lemma CompleteRun(procs: nat, file: Bytes, run: seq<nat>, t: nat)
    requires Exec(Next(procs, file), Init(procs), run).Some? && 1 <= t <= procs
    requires AllDone(procs, Exec(Next(procs, file), Init(procs), run).value)
    ensures var s := Exec(Next(procs, file), Init(procs), run).value;
            && Contents(s.log) == file && |s.zeros| == |s.sig| == procs + 1 && s.zeros[t] == 1
            && s.sig[t] == Mix(Digest(t, ChunksOf(s.log, t)), 0) == Fold(t, Ints(ChunksOf(s.log, t)) + [0])
  {
    hide Mix;
    hide Fold;
    hide Ints;
    InitInv(procs, file);
    RunKeepsInv(procs, file, Init(procs), run);
    var s := Exec(Next(procs, file), Init(procs), run).value;
    EndIsFold(t, ChunksOf(s.log, t));
    assert ThreadInv(s, t);
    assert file[..s.offset] == file;
  }

  lemma {:induction false} SigZeroKept(procs: nat, file: Bytes, s: State, run: seq<nat>)
    requires Sized(procs, file, s) && Exec(Next(procs, file), s, run).Some?
    ensures var s' := Exec(Next(procs, file), s, run).value;
            |s'.sig| == procs + 1 && s'.sig[0] == s.sig[0]
    decreases |run|
  {
    hide AbsorbRead;
    hide Mix;
    if run != [] {
      SigZeroKept(procs, file, Step(procs, file, s, run[0]), run[1..]);
    }
  }

  /** Which thread was handed which chunks decides sig[] and the printed signature. */
  lemma AssignmentDeterminesResult(procs: nat, file: Bytes, a: seq<nat>, b: seq<nat>)
    requires procs >= 1
    requires Exec(Next(procs, file), Init(procs), a).Some? && Exec(Next(procs, file), Init(procs), b).Some?
    requires var sa, sb := Exec(Next(procs, file), Init(procs), a).value, Exec(Next(procs, file), Init(procs), b).value;
             && AllDone(procs, sa) && AllDone(procs, sb)
             && forall t :: 1 <= t <= procs ==> ChunksOf(sa.log, t) == ChunksOf(sb.log, t)
    ensures var sa, sb := Exec(Next(procs, file), Init(procs), a).value, Exec(Next(procs, file), Init(procs), b).value;
            sa.sig == sb.sig && |sa.sig| == procs + 1 && Signature(sa.sig, procs) == Signature(sb.sig, procs)
  {
    hide Mix;
    var sa, sb := Exec(Next(procs, file), Init(procs), a).value, Exec(Next(procs, file), Init(procs), b).value;
    SigZeroKept(procs, file, Init(procs), a);
    SigZeroKept(procs, file, Init(procs), b);
    forall t | 0 <= t <= procs
      ensures sa.sig[t] == sb.sig[t]
    {
      if t > 0 {
        CompleteRun(procs, file, a, t);
        CompleteRun(procs, file, b, t);
      }
    }
    assert sa.sig == sb.sig;
  }

  // ----- One thread on its own

  /** The chunks that the file falls into from `offset` on. */
  function ChunksFrom(file: Bytes, offset: nat): seq<Bytes>
    requires offset <= |file|
    decreases |file| - offset
  {
    var chunk := NextChunk(file, offset);
    if chunk == [] then [] else [chunk] + ChunksFrom(file, offset + |chunk|)
  }

  lemma ReadOne(file: Bytes, offset: nat)
    requires offset <= |file|
    ensures var chunk := NextChunk(file, offset);
            ChunksFrom(file, offset) == if chunk == [] then [] else [chunk] + ChunksFrom(file, offset + |chunk|)
  {
  }

  class OpenFile {
    const data: Bytes
    var offset: nat

    ghost predicate Valid()
      reads this
    {
      offset <= |data|
    }

    constructor (data: Bytes)
      ensures Valid() && this.data == data && offset == 0
    {
      this.data := data;
      offset := 0;
    }

    /** read() of up to BUFFER_SIZE bytes; an empty result is the end of the file. */
    method Read() returns (chunk: Bytes)
      requires Valid()
      modifies this
      ensures Valid() && chunk == NextChunk(data, old(offset)) && offset == old(offset) + |chunk|
      ensures chunk == [] <==> old(offset) == |data|
    {
      var n := if |data| - offset <= BUFFER_SIZE then |data| - offset else BUFFER_SIZE;
      chunk := data[offset..offset + n];
      assert offset + n == |data| ==> data[offset..offset + n] == data[offset..];
      offset := offset + n;
    }

    /** The read loop of ThreadBody when no other thread reads. */
    method ThreadBody(threadId: nat) returns (num: nat)
      requires Valid()
      modifies this
      ensures num == Mix(Digest(threadId, ChunksFrom(data, old(offset))), 0) && offset == |data|
      ensures num == Fold(threadId, Ints(ChunksFrom(data, old(offset))) + [0])
    {
      hide Fold;
      hide Ints;
      hide Digest;
      hide AbsorbRead;
      hide Mix;
      hide ChunksFrom;
      hide NextChunk;
      num := threadId;
      ghost var whole, chunks, rest := ChunksFrom(data, offset), [], ChunksFrom(data, offset);
      DigestNothing(threadId);
      assert whole == [] + rest;
      var r := 1;
      while r > 0
        invariant Valid() && r >= 0
        invariant whole == chunks + rest
        invariant r > 0 ==> rest == ChunksFrom(data, offset) && num == Digest(threadId, chunks)
        invariant r == 0 ==> rest == [] && num == Mix(Digest(threadId, chunks), 0) && offset == |data|
        decreases |data| - offset, r
      {
        ReadOne(data, offset);
        var chunk := Read();
        r := |chunk|;
        if r > 0 {
          DigestAppend(threadId, chunks, chunk);
          rest := ChunksFrom(data, offset);
          assert chunks + ([chunk] + rest) == chunks + [chunk] + rest;
          chunks := chunks + [chunk];
          num := MixRead(num, chunk);
        } else {
          num := Mix(num, 0);
        }
      }
      assert chunks + [] == chunks;
      EndIsFold(threadId, chunks);
    }
  }
}
