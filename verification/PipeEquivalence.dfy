/** Processes with reference-counted pipes and threads with join-then-close compute the same. */
module PipeEquivalence {
  import N = PipeNet
  import ForkPipeRuns
  import ClonePipe

  /**
   Whatever one of the two programs can leave behind and print - the messages in arrival order,
   the chunks read, the numbers of all readers and the signature - the other can too.
   */
  lemma ForkAndCloneAgree(c: N.Config, n: N.Net, sig: nat)
    ensures ForkPipeRuns.IsResult(c, n, sig) <==> ClonePipe.IsResult(c, n, sig)
  {
    ForkPipeRuns.ForkResults(c, n, sig);
    ClonePipe.CloneResults(c, n, sig);
  }
}
