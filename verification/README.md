# The racey programs, modelled and proved

The racey suite is a set of small concurrent C programs for testing deterministic execution. Each
lets N threads or processes mix numbers through shared memory, locks, pipes, futexes, signals or a
shared file offset, and prints a signature that is meant to depend on every scheduling decision.
This project models eight of them and proves what holds of all their runs.

Every concurrent program is a partial step function over an explicit state; a run is a sequence of
labels that say who moves (`Runs`). The number of threads, MaxLoop, MAX_ELEM, NLOCK and the pipe
capacity are parameters. Each load and each store of a shared variable is a step of its own, under
sequential consistency; operations that touch only locals are merged with the step before or after
them. Spin loops and blocking calls are steps that are not enabled. The functions of the programs
that loop over arrays, buffers and descriptor tables are also written as imperative methods, proved
against the same functions that the step machines use, and tied to the machines by lemmas that take
the run in which only one thread is scheduled.

`dafny verify dfyconfig.toml` checks everything.

## Components

**mix** (`Mixing`). 32-bit wrap-around and the reduction modulo PRIME1, with its exact preimage
counts, its collisions, and when it permutes the residues. What the programs compute with it - initial
elements, iterations, messages, digests, signatures - is also stated in plain arithmetic, without it.

**The guarded array** (`Shared`, `SharedLoop`, `Sections`, `Guarded`, `LockOrder`,
`GuardedProgress`, `GuardedProgram`, `LostUpdate`, `Startup`). The repository's README (lines 28-31)
says of racey-guarded.c that it has no data races but a race on the order of lock acquisition. That
is proved here as: elements are touched under their lock only; interleaved steps have the same
results as atomic critical sections; and two runs that grant each lock in the same order end with
the same m[], sig[] and signature. The order does matter, by an example. Erasing the locks gives
runs of the unguarded loop, which has results that the locks exclude, again by an example; and the
two ways to start that loop, racey-basic.c and racey-nobarrier.c, have equal sets of results.

**The pipe network** (`Messages`, `PipeNet`, `PipeMeasure`, `Sums`, `PipeWorkers`, `Simulation`,
`ForkPipe`, `ForkPipeSteps`, `ForkPipeRuns`, `ForkPipeProgram`, `ClonePipe`, `PipeEquivalence`). One
abstract network, refined by the fork version (a descriptor table per process, reference-counted
write ends, close loops) and by the thread version (shared descriptors, join then close). Each
realises every run of the network, so both can print the same signatures. Pipes follow POSIX.1-2017
(System Interfaces, write() and read()): a write of at most PIPE_BUF bytes happens at once and
completely, a read of an empty pipe blocks while a write end is open and returns 0 otherwise; the
capacity is any number of bytes from PIPE_BUF on, and ints are little-endian.

**The futex scheduler.** The helpers of a group are methods of a class (`FutexGroup`). `FutexRounds`
is the round protocol of one group, in which a pick is free; `FutexProgram` is the whole program,
four groups over the shared m[] and sig[], with every load and store of a batch a step of its own
and every pick made from the sig[] entry of the thread that picks. Each run of the program is, group
by group, a run of the protocol, so what holds of the protocol for all picks holds of the program.

The protocol is not correct step by step. Three rules can be switched on and off in the step
relation:

1. `atomicPublish`: lines 184-185 change `owner` and `round` together.
2. `leaderFirst`: in a group turn all members evaluate line 151 before any executes line 165.
3. `exactWakes`: the wake at line 177 reaches only those that wait for a round gone by.

Whichever rules hold, nobody returns from a futex without a wake.

`FutexTheorems.WorksIff` says which of them a group needs, from its size and MaxLoop alone: the
rounds are safe in all runs, and no run gets stuck before the group has finished, if and only if

- the group has at most one member (so NumProcs 1 and 4 need no rule at all), or
- rule 2 holds, and MaxLoop is 1, or
- rules 1 and 2 hold, and so does rule 3, or the group has at most two members, or MaxLoop is at
  most 3.

For the program, `SufficesIff`, `RoundsAreSafe` and `ProgramFinishes` carry the "if" over to all
data. The "only if" is about free picks; that the failures are real is shown with the picks that the
program makes of its own data:

- without rule 1, two threads and MaxLoop 4: a member that polls between lines 184 and 185 passes
  the execution barrier alone (`FutexEarlyOwner.AtomicPublishIsNeeded`);
- without rule 2, MaxLoop 1 and any NumProcs with groups of two or more: two leaders, whatever the
  data, since nobody has picked yet (`FutexLift.TwoLeadersIff`);
- without rule 3, three threads and MaxLoop 6: a leader that has finished is so late with its wake
  that it wakes a waiter of a later round, which goes to sleep on `owner` and is never woken. The
  program deadlocks (`FutexLateWake.ExactWakesAreNeeded`).

The proofs are in `FutexSafety` and `FutexProgress` (steps that do no harm), `FutexConditions` and
`FutexAlone` (why no step does harm), `FutexTurns` and `FutexNeeded` (whole turns, and the runs that
go wrong), `FutexLift` and `FutexScript` (runs of the program). Whatever the rules, every thread
makes exactly MaxLoop iterations (`FutexIterations`).

**Signals** (`Signals`, `SignalProgress`, `SignalProgram`, `SignalBody`). The barrier used twice,
pending signals that coalesce, and the handler, which runs with SIGUSR1 masked and interrupts its
thread between any two steps. The runs of one body and of one handler activation are what the two
functions compute.

**The shared file offset** (`ReadFile`, `ReadFileProgress`). Each read() moves the offset atomically
(POSIX.1-2017, System Interfaces, section 2.9.7); the file does not change and reads are short only
at its end.

## Where the code surprises

- The result loops stop at NumProcs-1 while workers are numbered 1..NumProcs, so the signature does
  not read the last worker's entry (`SignatureIgnoresLastWorker`).
- sig2[0] is loaded from sig[33], beyond the array. It is the parameter `beyond` of
  `Signals.Init`, of any value; no thread uses it.
- The group set-up of racey-futex.c gives every thread a group only for NumProcs < 4 or a multiple
  of 4 (`GroupsCoverIff`).
- When a group's range ends at slot 33, the walk of groupPickNext never meets `end`; it wraps round
  and finds the smallest member instead of scheduling the whole group (`PickIsExact`).
- The test of startCounter at racey-basic.c:74 has an empty branch, so it is not a step.

## Model

| member | source | states |
|---|---|---|
| Mixing.MixFlat | racey-basic.c:56-58 | wrapping at every operation is wrapping once at the end |
| Mixing.ArgumentForIsInverse | racey-basic.c:38-58 | for each i, the 32-bit sum is a bijection in j, with an explicit inverse in both directions |
| Mixing.PreimageCount | racey-basic.c:37-58 | for every i and every v < PRIME1 exactly 42 of the 2^32 values j give v if v < 69005333, and exactly 41 otherwise |
| Mixing.MixBelowWrap | racey-basic.c:56-58 | mix(.,j) is a rotation modulo PRIME1 below the wrap point and a translation from it on |
| Mixing.CollisionIff | racey-basic.c:56-58 | a < b collide exactly when b - a = 69005333 and the wrap point lies in (a, b] |
| Mixing.AtMostTwoToOne | racey-basic.c:56-58 | no three first arguments below PRIME1 share a result |
| Mixing.PermutationIff | racey-basic.c:56-58 | mix(.,j) is injective and onto [0, PRIME1) exactly when j*PRIME2 mod 2^32 is at most 2^32 - PRIME1 |
| Shared.InitElements | racey-guarded.c:134-137 | the initial loop stores mix(i,i), in plain arithmetic (i + i * PRIME2) mod 2^32 mod PRIME1, in every element |
| Shared.BatchSize | racey-signal.c:84-87 | npersig: a thousandth of MaxLoop from 1000 on, a hundredth from 100 on, both rounded down, and 1 below |
| Shared.ComputeResult | racey-guarded.c:176-180 | main folds sig[1]..sig[NumProcs-1] into sig[0], in that order: the values that mix_sig takes are given one from the other in plain arithmetic |
| Shared.SignatureIsFlat | racey-guarded.c:177-180 | the same of the signature in all results: v[0] = sig[0], v[i] = (sig[i] + v[i-1] * PRIME2) mod 2^32 mod PRIME1, and the last v is printed |
| Shared.SignatureIgnoresLastWorker | racey-guarded.c:178-180 | two sig[] that differ only in the last worker's entry have one signature |
| SharedLoop.ThreadBody | racey-nobarrier.c:77-86 | undisturbed, the loop leaves m[] and its own sig entry as MaxLoop iterations of the mixing do, and no other sig entry changed |
| SharedLoop.SoloRun | racey-nobarrier.c:77-86 | the run of the step machine that schedules one thread only is that loop, for any number of iterations |
| SharedLoop.Batch | racey-signal.c:115-124 | the inner loop makes npersig iterations or as many as are left |
| SharedLoop.IterateIsFlat | racey-nobarrier.c:78-85 | one iteration in plain arithmetic: two elements are mixed in, each found by the value before, and the second one is overwritten |
| SharedLoop.IterateMore | racey-signal.c:114-124 | batches of iterations compose to the iterations of the whole loop |
| Sections.SectionsCommute | racey-guarded.c:96-107 | critical sections of two threads under different locks commute |
| Sections.MoveToFront | racey-guarded.c:96-107 | a thread that is first to get its lock could have moved first of all, with the same lock order and outcome |
| Sections.LogsDetermineState | racey-guarded.c:92-109 | runs of whole sections with equal grant order for each lock end in the same state |
| Guarded.StepKeepsInv | racey-guarded.c:58-64 | mutual exclusion: a lock is held by t exactly while t is in a section under that lock |
| Guarded.NoDataRace | racey-guarded.c:96-107 | in every run, a step that changes m[k] or whose outcome depends on it is made by the holder of lock k % NLOCK, so no other thread can be about to touch m[k] |
| Guarded.StepIsSectionOrNothing | racey-guarded.c:96-107 | with sections in progress taken as completed, granting a lock is one whole section and any other step changes nothing |
| Guarded.RunIsSections | racey-guarded.c:92-109 | every interleaved run, complete or not, is a run of whole sections in grant order, with the same order for each lock |
| LockOrder.LockOrderDeterminesCompletion | racey-guarded.c:92-109 | any two runs, even cut short, that grant each lock in the same order agree once their open sections are completed |
| LockOrder.LockOrderDeterminesResult | racey-guarded.c:92-109 | complete runs that grant each of the NLOCK mutexes in the same order end with equal m[], sig[] and signature |
| LockOrder.Reduction | racey-guarded.c:92-109 | the results of interleaved lock, load, store and unlock steps are exactly the results of atomic sections |
| LockOrder.LockOrderMatters | racey-guarded.c:92-109 | with 64 elements and 8 locks, two lock orders of two threads give different signatures |
| LockOrder.EraseRun | racey-guarded.c:92-109 | with its lock and barrier steps erased, a guarded run is a run of the unguarded loop |
| LockOrder.GuardedRefinesLoop | racey-guarded.c:92-109 | every guarded result is a result of the unguarded loop |
| LostUpdate.LocksExcludeLostUpdate | racey-nobarrier.c:77-86 | the inclusion is strict: with 64 elements and 8 locks, a lost update is a result of the unguarded loop and in no run a result under locks |
| GuardedProgress.NoDeadlock | racey-guarded.c:72-111 | a run can always be continued until all threads are done, which is exactly after NumProcs * (9 * MaxLoop + 3) steps |
| GuardedProgress.BarrierSafety | racey-guarded.c:80-92 | until all threads are at the barrier, m[] and sig[] are untouched and nobody is in the loop |
| GuardedProgram.Program.constructor | racey-guarded.c:134-155 | arrays as initialised by main, all locks free |
| GuardedProgram.Program.LockItem | racey-guarded.c:58-60 | one attempt at the lock of the element's partition, granted exactly if it is free; no other lock changes |
| GuardedProgram.Program.UnlockItem | racey-guarded.c:62-64 | releases it |
| GuardedProgram.Program.ThreadBody | racey-guarded.c:92-109 | undisturbed, the guarded loop computes what the unguarded loop computes and leaves every lock free |
| GuardedProgram.SoloSections | racey-guarded.c:92-109 | the run of sections that schedules one thread only is that loop |
| Startup.StepKeepsInv | racey-basic.c:71-78 | startCounter is NumProcs minus the completed decrements, and no step raises it or takes it below 0 |
| Startup.BarrierSafety | racey-basic.c:71-99 | in every run, m[] and sig[] are untouched and nobody is in the loop until all threads exist and have decremented |
| Startup.CounterNeverRises | racey-basic.c:71-78 | along any run startCounter never rises |
| Startup.BasicResults | racey-basic.c:71-99 | racey-basic.c has exactly the results of the bare loop |
| Startup.NoBarrierResults | racey-nobarrier.c:77-140 | racey-nobarrier.c, whose threads start one by one, has exactly the results of the bare loop |
| Startup.NothingBeforeCreation | racey-nobarrier.c:77-140 | there, no thread does anything before main has created it |
| Startup.BasicAndNoBarrierAgree | racey-basic.c:71-99 | racey-basic.c and racey-nobarrier.c reach the same final m[] and sig[] |
| Messages.WordsRoundTrip | racey-forkpipe.c:97-98 | ints written to a pipe are the ints read back |
| Messages.WordsAppend | racey-forkpipe.c:93-99 | two messages read together are read as the ints of the first and then of the second |
| Messages.NumRoundTrip | racey-forkpipe.c:103-223 | a reader's num survives its output pipe |
| Messages.IntsAt | racey-forkpipe.c:97-98 | int k of a buffer is bytes 4k to 4k+3, least significant first |
| Messages.BufferIsFlat | racey-forkpipe.c:130-134 | int k of a message comes from int k-1, or from num, by mixing in k * PRIME1 and then PRIME2 / (k+1), in plain arithmetic |
| Messages.MessageIsFlat | racey-forkpipe.c:129-138 | the same of the bytes written, from message to message: the first int of the next comes from the last int and the 64 that write() returned |
| Messages.TargetIsLastInt | racey-forkpipe.c:135-137 | a message goes to the reader that its last int selects |
| Messages.FillBuffer | racey-forkpipe.c:130-134 | the sixteen ints of a message, each from the one before it by the two mixes, and num is the last of them |
| Messages.WriterLoop | racey-forkpipe.c:129-140 | the i-th write of a writer has a content that depends on its id and i alone, and goes to the reader that its last int selects |
| Messages.MixRead | racey-forkpipe.c:95-99 | a read is absorbed as its size and then its whole ints in order, a plain left fold; left-over bytes are ignored |
| Messages.DigestIsFold | racey-forkpipe.c:91-100 | a reader's num after any reads is the left fold, in plain arithmetic, of each read's size and ints |
| PipeNet.RunKeepsInv | racey-forkpipe.c:91-140 | streams, framing and digests hold along every run of the network |
| PipeNet.Conservation | racey-forkpipe.c:91-140 | each reader has got, byte for byte, the messages sent to it; those of each writer are all there, once, in order; its num is the fold of the sizes and ints of its reads and a 0 |
| PipeNet.EofIsExact | racey-forkpipe.c:91-100 | a reader at the end of its input has consumed everything ever addressed to it |
| PipeNet.ArrivalsDetermineNum | racey-forkpipe.c:91-100 | arrival order and read sizes alone determine a reader's final num |
| PipeNet.Framing | racey-forkpipe.c:93-137 | no pipe exceeds its capacity, and every read returns one whole message or two |
| PipeNet.WriteIsExact | racey-forkpipe.c:129-138 | in every state that runs lead to, a writer's next write appends its next message to the pipe of that message's target exactly if 64 bytes fit |
| PipeNet.ReadIsExact | racey-forkpipe.c:93-99 | a read takes the bytes that are there, in order, up to 128 of them, and mixes in their number and their ints |
| PipeNet.SignatureIsFlat | racey-forkpipe.c:207-234 | main's result in plain arithmetic: from 0, each number read back is mixed in and then the 4 bytes it took |
| ForkPipe.StartAndKeep | racey-forkpipe.c:69-118 | the descriptors a process closes and those it keeps are a partition of those it inherits |
| ForkPipe.WriterHoldsWriteEnds | racey-forkpipe.c:114-205 | a writer that may still write, even one yet to be forked, has both ends of every input pipe held open by itself or by main |
| ForkPipe.ClosedMeansFinished | racey-forkpipe.c:143-146 | a pipe loses its last write end only after all writers have finished |
| ForkPipeProgram.Process.OpenPipes | racey-forkpipe.c:169-181 | main ends up with exactly the descriptors of all pipes |
| ForkPipeProgram.Process.ReaderCloses | racey-forkpipe.c:69-80 | closes only what is open, in the order the step machine has, and leaves the reader's two descriptors |
| ForkPipeProgram.Process.WriterCloses | racey-forkpipe.c:114-118 | the same for a writer, which keeps the input pipes |
| ForkPipeProgram.Process.MainCloses | racey-forkpipe.c:200-205 | the same for main, which keeps the read ends of the outputs |
| ForkPipeProgram.Process.ReaderEnds | racey-forkpipe.c:104-105 | a reader ends with no descriptor open |
| ForkPipeProgram.Process.WriterEnds | racey-forkpipe.c:142-146 | a writer ends with no descriptor open |
| ForkPipeSteps.StepKeepsInv | racey-forkpipe.c:62-234 | descriptor tables are exact in every state, and each step is a step of the network or leaves it alone |
| ForkPipeRuns.RunRefinesNet | racey-forkpipe.c:62-234 | every run of the processes is a run of the abstract network, and is no longer than the measure of its first state |
| ForkPipeRuns.ExactEof | racey-forkpipe.c:91-100 | in every run, forks under way included, a reader that was told the end of its input has got all MaxLoop messages of every writer that were for it |
| ForkPipeRuns.NoEarlyEof | racey-forkpipe.c:70-205 | no reachable state lets a reader see the end of its input while a writer may still write |
| ForkPipeRuns.WritesHaveReaders | racey-forkpipe.c:137-137 | no writer ever writes to a pipe without a reader |
| ForkPipeRuns.ClosesAreValid | racey-forkpipe.c:70-205 | every close() is of a descriptor that the process has open |
| ForkPipeRuns.OpenInLoop | racey-forkpipe.c:69-205 | in its loop reader t has open exactly inputs[t][RD] and output[t][WR], a writer exactly both ends of all inputs; main, once past its closes, exactly the read ends of the outputs; an exited process nothing |
| ForkPipeSteps.CollectNeedsOutput | racey-forkpipe.c:221-234 | main finds the four bytes it reads; the branch "no output from thread" is unreachable |
| ForkPipeSteps.SomeProcessMoves | racey-forkpipe.c:62-234 | no deadlock: in every reachable state before main is finished some process can step |
| ForkPipeRuns.StepDecreases | racey-forkpipe.c:62-234 | a natural number decreases with every step of every process |
| ForkPipeRuns.RunsEnd | racey-forkpipe.c:62-234 | all runs are bounded, and one that cannot be continued has printed its result |
| ForkPipeRuns.ForkFollows | racey-forkpipe.c:62-234 | once no step is left that the network does not see, the processes can make every step that the network can |
| ForkPipeRuns.ForkResults | racey-forkpipe.c:184-234 | the final networks and signatures of the fork version are exactly those of the abstract network |
| ClonePipe.RunRefinesNet | racey-clonepipe.c:61-219 | every run of the threads is a run of the abstract network, and is no longer than the measure of its first state |
| ClonePipe.ClosedMeansFinished | racey-clonepipe.c:182-195 | main closes a write end only after all writers have finished |
| ClonePipe.CollectedWord | racey-clonepipe.c:206-216 | main reads back the number that the reader ended with |
| ClonePipe.SomeThreadMoves | racey-clonepipe.c:61-219 | no deadlock before main is finished |
| ClonePipe.RunsEnd | racey-clonepipe.c:61-219 | all runs are bounded, and one that cannot be continued has printed its result |
| ClonePipe.CloneFollows | racey-clonepipe.c:61-219 | once no step is left that the network does not see, the threads can make every step that the network can |
| ClonePipe.CloneResults | racey-clonepipe.c:169-219 | the final networks and signatures of the thread version are exactly those of the abstract network |
| PipeEquivalence.ForkAndCloneAgree | racey-clonepipe.c:169-219 | both programs reach the same arrival orders, reads, reader outputs and signatures |
| FutexGroup.Group.constructor | racey-futex.c:243-252 | a group's slots, range and owner, cut off at NumProcs |
| FutexGroup.Group.GroupSize | racey-futex.c:77-83 | the number of live members |
| FutexGroup.Group.GroupLeader | racey-futex.c:85-91 | the smallest live member, or 0; the function that the protocol uses |
| FutexGroup.Group.GroupRemoveMe | racey-futex.c:93-95 | clears one slot and nothing else |
| FutexGroup.Group.GroupPickNext | racey-futex.c:97-110 | terminates and returns the exact pick from the start sig % (end - begin + 1) + begin |
| FutexGroup.Group.WalkFrom | racey-futex.c:103-104 | the % 33 walk stops, by a cyclic distance, where StopOf says |
| FutexGroup.PickIsExact | racey-futex.c:97-110 | the pick is 0 iff the group is empty; else the first live member from the start on; else minus the size, or the smallest member if the range ends at 33 |
| FutexGroup.SetUpGroups | racey-futex.c:240-253 | the four ranges that main sets up |
| FutexGroup.GroupsDisjoint | racey-futex.c:240-253 | no thread is in two groups |
| FutexGroup.GroupsCoverIff | racey-futex.c:240-253 | every thread has a group exactly when NumProcs < 4 or 4 divides NumProcs |
| FutexSafety.StepKeepsInv | racey-futex.c:145-196 | every step that does no harm - it publishes at once, leaves after all have looked for the leader, wakes nobody too early who still has a turn to take - takes a legal turn to a legal turn |
| FutexSafety.InvIsSafe | racey-futex.c:145-196 | in a legal turn: owner is minus the number of participants yet to increment it; nobody is past the barrier while one has its batch before it; one member publishes, and the turn that it took part in; a single turn excludes all others |
| FutexProgress.StepDecreases | racey-futex.c:145-196 | a measure decreases with every step that does no harm, whatever the members pick |
| FutexProgress.StuckIsFinished | racey-futex.c:164-199 | in a legal turn that cannot go on all members have returned, nobody sleeps, the group is empty and owner is 0; unfinished members are never all asleep or blocked |
| FutexConditions.LateWaker | racey-futex.c:177-179 | a leader that wakes while a live member waits for the present round has left the group, and a third member leads |
| FutexConditions.RulesMakeHarmless | racey-futex.c:145-196 | under rules that suffice for the size and MaxLoop no step does harm |
| FutexAlone.StepAlone | racey-futex.c:164-187 | a single member steps without any rule as it does under all of them, but for the two halves of a publication |
| FutexTheorems.RoundsAreSafe | racey-futex.c:145-196 | under rules that suffice, for every group size and MaxLoop, the rounds are safe in every state of every run |
| FutexTheorems.GroupFinishes | racey-futex.c:145-199 | under rules that suffice all runs are bounded, and one that cannot be continued ends with all returned, no sleeper, an empty group and owner 0 |
| FutexTheorems.BarrierIsExact | racey-futex.c:171-172 | under rules that suffice, a member leaves the execution barrier exactly when all participants of its turn have come to it and no owner has been published since, or its round is over |
| FutexTheorems.RoundsAreBounded | racey-futex.c:116-186 | every published turn is paid for with an iteration of some member |
| FutexTheorems.WorksIff | racey-futex.c:145-199 | all runs are safe and end well exactly under the rules that suffice, a condition on the rules, the group size and MaxLoop; for all eight sets of rules |
| FutexTheorems.TwoLeadersIff | racey-futex.c:151-165 | without rule 2, for every MaxLoop, two members can lead one turn exactly if the group has two members or more |
| FutexNeeded.TwoLeaders | racey-futex.c:151-165 | the run: group turns until the last one, in which each member leaves before the next has looked |
| FutexNeeded.TwoPublishers | racey-futex.c:184-185 | without rule 1, from two members and two iterations on, the next owner comes to publish while the last one is half-way through its own publication |
| FutexNeeded.Deadlock | racey-futex.c:164-194 | without rule 3, from three members and four iterations on, a run that ends with the owner and all other unfinished members asleep |
| FutexProgram.RunProjects | racey-futex.c:113-199 | every run of the program, with its data, is for each group a run of the protocol in which picks are made by the sig[] entries |
| FutexProgram.UndisturbedBatch | racey-futex.c:154-163 | a batch that nobody disturbs makes npersig iterations of the mixing, or as many as are left |
| FutexProgram.ReturnsIncrement | racey-futex.c:193-194 | outside batches a sig[] entry goes up by one, modulo 2^32, exactly when its thread comes back from waiting on owner, woken or because owner had changed; nothing else in sig[] or m[] changes |
| FutexIterations.IterationsAreExact | racey-futex.c:145-163 | in every run, under any rules and picks, a thread has made as many iterations as its loop variable says, and one that has returned has made MaxLoop |
| FutexProgram.SufficesIff | racey-futex.c:240-253 | which rules suffice, told from NumProcs and MaxLoop |
| FutexProgram.RoundsAreSafe | racey-futex.c:113-199 | under rules that suffice the rounds of all groups are safe in every state of every run of the program |
| FutexProgram.ProgramFinishes | racey-futex.c:113-199 | under rules that suffice all runs of the program are bounded, and one that cannot be continued has every group finished |
| FutexEarlyOwner.AtomicPublishIsNeeded | racey-futex.c:184-185 | a run of the program without rule 1, two threads and MaxLoop 4, in which thread 1 is past the barrier and thread 2 has its batch before it |
| FutexLift.LiftRun | racey-futex.c:113-199 | a run of the protocol in which nobody has picked yet is a run of the program, for any data |
| FutexLift.TwoLeadersIff | racey-futex.c:151-165 | with MaxLoop 1 and without rule 2 the program can have two leaders in a turn exactly if its groups have two members or more |
| FutexLateWake.ExactWakesAreNeeded | racey-futex.c:177-179 | a run of the program without rule 3, three threads and MaxLoop 6, that ends in a deadlock: threads 2 and 3 sleep, it is the turn of thread 3, and nobody else is left |
| Signals.StepKeepsInv | racey-signal.c:80-136 | the barrier's count and generation, the flags and the loop counters hold together along every step |
| Signals.KillIsSafe | racey-signal.c:90-133 | every pthread_kill goes to thread sig[t] % NumProcs + 1, which has stored threadSelfs, installed the handler and not returned, and makes the signal pending for it alone |
| Signals.NothingAfterReturn | racey-signal.c:128-136 | a thread that has returned executes nothing more, not even its handler |
| Signals.NoSignalBeforeInstallation | racey-signal.c:93-103 | no signal is pending or handled before all handlers are installed |
| Signals.SendsAreExact | racey-signal.c:114-126 | a thread past its loop has made MaxLoop iterations and ceil(MaxLoop / npersig) sends: 1000 to 1999 from MaxLoop 1000 on, 100 to 199 from 100 on, MaxLoop below |
| Signals.PrivateEntries | racey-signal.c:64-124 | in every run, sig[t] has its initial value until t's body completes an iteration, and sig2[t] its own until a signal is delivered to t |
| Signals.EntriesChangeOnlyBy | racey-signal.c:64-124 | over any stretch of a run, sig[t] changes only with an iteration of the body of t and sig2[t] only with a handler run on t; handler runs are not nested |
| SignalProgress.SignalsAreAccountedFor | racey-signal.c:64-126 | sends are handler runs plus pending plus coalesced signals, so handlers run at most as often as signals are sent |
| SignalProgress.RunsEnd | racey-signal.c:80-136 | nobody waits for ever at either barrier, and all runs are bounded |
| SignalProgram.Program.constructor | racey-signal.c:159-166 | m[], sig[] and the reversed sig2[] |
| SignalProgram.Program.ThreadSignalHandler | racey-signal.c:64-78 | a handler run makes 100 iterations on sig2[t] and leaves sig[] alone |
| SignalProgram.Program.ThreadBody | racey-signal.c:114-126 | undisturbed: MaxLoop iterations, the number of signals sent, and the target of each |
| SignalProgram.Program.ComputeResult | racey-signal.c:200-207 | main folds sig[1]..sig[NumProcs-1] into sig[0] and then sig2[1]..sig2[NumProcs-1], in plain arithmetic |
| SignalProgram.HandlerActivation | racey-signal.c:64-78 | delivery and an activation during which only its thread runs do in the step machine what the handler function does, and the thread goes on where it was |
| SignalBody.BodyIteration | racey-signal.c:115-124 | five undisturbed steps of the body are one iteration of the mixing on m[] and sig[t] |
| SignalBody.BodyBatch | racey-signal.c:115-124 | batches of them, without a signal |
| SignalBody.BodyRun | racey-signal.c:114-126 | the run of the step machine that schedules only the body of t is ThreadBody: m[], sig[], the number of signals, the target of each, and which become pending |
| ReadFile.RunKeepsInv | racey-readfile.c:79-90 | offset, hand-outs and digests hold along every run |
| ReadFile.ChunksPartitionFile | racey-readfile.c:79-86 | the chunks handed out in any run, concatenated, are the file up to the offset; only the last one can be short |
| ReadFile.CompleteRun | racey-readfile.c:79-90 | in a complete run the whole file is handed out and each thread sees one 0; its sig entry is the fold of the sizes and ints of its chunks and that 0 |
| ReadFile.AssignmentDeterminesResult | racey-readfile.c:79-165 | which thread got which chunks determines sig[] and the signature |
| ReadFileProgress.RunsEnd | racey-readfile.c:71-90 | nobody waits for ever at the barrier, and no run has more than file size + 4 * (NumProcs + 1) steps |
| ReadFileProgress.BarrierSafety | racey-readfile.c:71-90 | nobody reads until all threads are at the barrier |
| ReadFile.OpenFile.Read | racey-readfile.c:80-80 | returns the next chunk, and nothing exactly at the end |
| ReadFile.OpenFile.ThreadBody | racey-readfile.c:79-86 | undisturbed, a thread absorbs the rest of the file chunk by chunk, and then a 0, as a plain left fold |

## Left out

- Weak memory: all programs are modelled under sequential consistency, so nothing is said about what the racy ones do under the C memory model.
- Spurious wake-ups: a futex wait ends only with a wake, or at once if the value has changed.
- "Any race changes the signature" (racey-basic.c:87-88): said there only if mix is good, and not claimed here.
- Errors: fork, pipe, read, write, futex and pthread calls succeed; no short writes, no interrupted calls, no failed asserts except those about groups.
- Output, argument parsing, usleep, the loops that seize the cpu, the addresses printed, and the calls syscall(318), syscall(319) and syscall(320): no effect on the modelled state. The order in which wait() reports children only affects output.
- pthread_barrier_t: a counter, with a generation where it is used twice; which thread gets PTHREAD_BARRIER_SERIAL_THREAD is not modelled.
- Thread creation in racey-guarded.c and racey-readfile.c: not a step of its own, since the barrier lets nobody into the loop before all have arrived. It is one in the other programs.
- FutexRounds.Step: a scan of threads[] in groupLeader or groupPickNext, `round++`, and the two loads of the spin test are one step each; a wake and the sleepers' return, with the increment of line 194, are one step.
- FutexTheorems.WorksIff: picks are free in it, so its "only if" says that some picks lead to failure, not that the program's do; which data do is shown for three settings only. sig[] < PRIME1 is not claimed of racey-futex.c, because line 194 breaks it.
- FutexProgram.ProgramFinishes: for NumProcs that leaves a thread without a group, that thread fails the assert of line 131; here it does nothing.
- SignalProgram.Program.ThreadBody: like the other methods over arrays it runs one thread at a time; interleaving is in the step machines, which are over values.
- ForkPipeProgram.Process.Close: the descriptor table is a set of pipe ends; descriptor numbers are not modelled.
- racey-freqsyscall.c, racey-mmaptmpfile.c and racey-forkmmap.c: the unguarded loop again, with system calls or another mapping.
- racey-tcp: socket plumbing. simple-*.c, test.pl, scripts and Makefiles: drivers.
