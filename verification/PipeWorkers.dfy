/** The numbering that the two pipe programs share: worker 0 is main, 2t-1 is reader t, 2t is writer t. */
module PipeWorkers {
  predicate IsReader(p: nat) { p % 2 == 1 }

  /** The threadId of worker `p`. */
  function Id(p: nat): nat { (p + 1) / 2 }
}
