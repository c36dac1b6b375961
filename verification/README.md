# A verified model of circle's work stealing, termination and clean-up

Circle runs the same main loop on `n` ranks. A rank with an empty queue asks another rank for
work, and when nobody has any the ranks agree to stop, drain their messages and reduce a final
result. This project models that engine in Dafny and proves what it is for: no item is lost or
processed twice, and exactly when nobody stops early and nothing is left on the network at exit.

The model has three levels.

* **The machine** (`System`, over `WorkProtocol`, `TreeWave`, `TokenRing`, `BackgroundReduce`).
  A transition system over any number of ranks and any tree width. One action is one micro-step
  of one handler at one rank; ranks interleave freely and a message may be delayed for ever. A call of a
  handler is a sequence of such steps, so the machine has every behaviour of the handlers and
  more. Per pair of ranks and tag, messages keep their order (section 3.5 of MPI 3.1). Requests and
  receipts are empty messages, so a bag of senders and a counter stand for them.
* **One rank** (`RankState`, `PackedQueue`, `WorkSplit`, `KaryTree`). The classes `State`, `Queue`
  and `TreeState` with the source's fields, loops and branches. What the probes find, the clock,
  the random numbers and the user callbacks are parameters. For each handler of the main and the
  clean-up loop, `HandlerCalls`, `RequestCalls`, `ReduceCalls`, `BarrierRounds` and `HandlerRuns`
  prove that one call, with the effect the class states, is a run of the machine that touches nothing else.
* **Whole runs** (`Invariants`, `TreeSafety`, `RingSafety`, `EndToEnd`, `Counterexamples`,
  `DetectionBound`, `Stragglers`, `CleanUpProgress`, `ReceiptDrain`, `TreeDetection`, `RunsEnd`,
  `LostWork`, `ReduceRuns`). Inductive
  invariants and the theorems about every reachable state. `SyncReduce` and `FinalRun` continue the
  machine past the barrier with the final reduction, message by message.

## What the code does and what its comments say

* `src/state.cpp:637` declares a local `term_flag` that shadows the member. As written, every rank
  sends 0 up and the root always ends with 1, so the root stops at the first completed wave. The
  comments around it describe the member being sent, captured and reset. `Config.asWritten`
  selects between the two; `CompleteExactlyWhenSound` proves that the code as written is wrong for
  every number of ranks above 1, and that the described version is right for all. The mistake is not
  made good later: `NothingLostExactlyWhenSound` states that some run which all ranks leave loses an item in
  exactly the same configurations.
* The token ring consults neither receipts nor pending requests. It is right exactly if a rank
  passes the token on only when no work is travelling to it (`Config.delivery`), or if there is one
  rank. The same theorems state both directions.
* Clean-up means to leave no message behind. With the allreduce it does, shadowed flag or not. With the
  ring the clean-up loop does not take work receipts, and for every number of ranks above 1 there is
  a run after which a receipt is still in flight when all ranks have left.
  `ReceiptsDrainedExactlyWhen` states the exact condition.
* A checkpoint comes back reversed, and only if no item holds a newline or a NUL;
  `RoundTripExactlyWhenPlain` states this as an if-and-only-if.

## Reading guide

`Reachable(cfg, w)` says that `w` is reached from an initial state by a sequence of enabled
actions. `Quiet` means that no rank holds work and none is travelling; `Complete` adds that the
multiset of processed items equals the multiset of items ever created. The field `handled`
is each rank's counter of items processed, the number it reports in both reductions. The fields `processed`,
`created`, `round`, `given`, `counted`, `built` and `refused` are history: no guard reads them. A process callback pops
one item and pushes any finite list of non-empty items. `PROC_NULL` is a number no rank has.

The operation of a reduction is arbitrary. In the background reduction a rank combines its children's
values as they come; `built` records how. The result does not depend on the grouping if the operation is
associative, and not on the order either if it is commutative as well. The final reduction keeps to the
order of the tree, so associativity alone makes its result the fold in preorder.

## Model

| member | source | states |
|---|---|---|
| EndToEnd.TerminationIsComplete | src/state.cpp:1549-1592 | exactly-once: from the moment any rank leaves the work loop, in either sound mode, nothing is queued or travelling and processed items equal created items as multisets |
| EndToEnd.AllreduceDecisionIsRight | src/state.cpp:593-708 | when the root's allreduce yields 1, every queue is empty, every `work_outstanding` is 0, and no work and no receipt is in flight, on a fully asynchronous network |
| EndToEnd.BarrierMeansDrained | src/state.cpp:1660-1703 | once any rank has left the barrier, no request, reply, token or reduce message is in flight anywhere and every rank has stopped, in every configuration |
| EndToEnd.TreeBarrierMeansSettled | src/state.cpp:1609-1658 | in tree mode, shadowed flag or not, receipts and termination messages are gone as well |
| ReceiptDrain.ReceiptsDrainedExactlyWhen | src/state.cpp:1597-1703 | in all reachable states with some rank past the barrier no receipt and no termination message is in flight, if and only if the allreduce is used or there is one rank |
| ReceiptDrain.RingReceiptsRemain | src/state.cpp:1690-1702 | in ring mode, guarded or not, for every n above 1, a run after which every rank has left and a receipt is still in flight |
| EndToEnd.CleanUpReceivesNoWork | src/state.cpp:1684-1685 | in a sound configuration a reply received during clean-up carries no items |
| EndToEnd.AcceptNeverOverwrites | src/state.cpp:1162-1196 | whenever a reply is received, in the work loop or in clean-up, the receiver's queue is empty and the reply is its only one |
| EndToEnd.RequestorsFit | src/state.cpp:1472-1499 | collected requestors are distinct other ranks and, with the requests still in flight, fewer than `size`, so they fit the array and the collecting loop ends |
| EndToEnd.ExactlyOneToken | src/state.cpp:888-972 | there is exactly one token, held or on the wire; a rank that holds it has no send pending, and on receipt its earlier send has been matched |
| EndToEnd.ProbesFindOnlyChildren | src/state.cpp:603-625 | the any-source probes of the allreduce and the barrier never take the parent's message for a child's |
| EndToEnd.RootLeavesFirst | src/state.cpp:474-521 | a rank leaves the clean-up barrier only after the root |
| Counterexamples.CompleteExactlyWhenSound | src/state.cpp:593-1049 | termination is complete in all reachable states if and only if there is one rank, or the allreduce uses the member flag, or the ring obeys the delivery guard |
| Counterexamples.ShadowedFlagEndsTooEarly | src/state.cpp:636-657 | with the shadowed flag, for every n above 1 and every width, a run in which the root stops while rank 1 holds an item |
| Counterexamples.ShadowedFlagSendsZero | src/state.cpp:636-657 | with the shadowed flag, in every reachable state every flag on its way up is 0, completing a wave ends the root's work loop, and no step of the allreduce sets the member flag |
| Counterexamples.UnguardedRingEndsTooEarly | src/state.cpp:1003-1049 | without the delivery guard, for every n above 1, a run in which rank 0 stops while an item travels to rank 1 |
| LostWork.NothingLostExactlyWhenSound | src/state.cpp:1549-1703 | in all reachable states in which every rank has left the barrier processed items equal created items, if and only if the same condition on the configuration holds as for complete termination |
| LostWork.CleanUpReceivesNoWorkExactlyWhenSound | src/state.cpp:1684-1685 | no reply that carries items can be received in clean-up, if and only if that condition holds |
| LostWork.ShadowedFlagLosesWork | src/state.cpp:636-657 | with the shadowed flag, for every n above 1 and every width, a run that all ranks leave and in which an item is never processed |
| LostWork.UnguardedRingLosesWork | src/state.cpp:1003-1049 | likewise without the delivery guard, for every n above 1 |
| Stragglers.ReleasesAreBounded | src/state.cpp:663-707 | once the root has left the work loop, in every configuration, each further step of the allreduce or receipt of the token takes exactly one more rank out and no other step does, so there are fewer than n |
| Stragglers.StragglersNeverStuck | src/state.cpp:663-707 | and while some rank still works, a rank can leave, process an item, take a reply or take a receipt, in every configuration |
| Stragglers.SoundStragglersLeave | src/state.cpp:956-971 | in a sound configuration a rank can leave the work loop at once |
| CleanUpProgress.CleanUpEnds | src/state.cpp:1597-1703 | once no rank is in the work loop, no run has more than ten state-changing steps per rank, and a run that cannot go on has brought every rank past the barrier |
| CleanUpProgress.StoppedNeverStuck | src/state.cpp:1663-1703 | until every rank has left, some rank can take a step that changes the state |
| CleanUpProgress.StepLowersTotal | src/state.cpp:1663-1703 | each such step uses up one of a bounded number of obligations |
| DetectionBound.RingDetectsInThreeRounds | src/state.cpp:907-1049 | from any reachable quiet state the number of token sends until rank 0 decides is fixed and below 3n |
| DetectionBound.TransferColours | src/state.cpp:1317-1320 | items sent to a lower rank or to the predecessor blacken the sender; any other answer leaves all colours and the number of token sends to come as they are |
| DetectionBound.RingNeverStuck | src/state.cpp:1003-1049 | with all work done and until rank 0 has decided, the token can move |
| DetectionBound.TreeDetectsInTwoMoreWaves | src/state.cpp:593-708 | with all work done and acknowledged, at most the wave in progress and the next one can yield 0; the one after ends the run, shadowed flag or not |
| TreeDetection.TreeNeverStuck | src/state.cpp:593-708 | with all work done and acknowledged, until the root has decided, some rank can advance the allreduce, shadowed flag or not |
| TreeDetection.TreeDetectsInTenStepsPerRank | src/state.cpp:593-708 | with all work done and acknowledged, no run in which the root still works takes more than ten steps of the allreduce per rank |
| TreeDetection.TreeDecides | src/state.cpp:593-708 | from any such state, shadowed flag or not, a run leads to the root's decision |
| RunsEnd.RingDecides | src/state.cpp:1003-1049 | in ring mode, with all work done, a run leads to rank 0's decision without another work step |
| RunsEnd.WorkSettles | src/state.cpp:1549-1592 | from every reachable state a run leads to one in which every rank still in the work loop has an empty queue and nothing outstanding |
| RunsEnd.EveryRunCanEnd | src/state.cpp:1545-1703 | in every configuration, sound or not, from every reachable state a run leads to one in which every rank has left the barrier |
| TreeSafety.StepKeepsTreeSafe | src/state.cpp:524-592 | the inductive form of the safety argument: before the decision an alarm is pending or every counted rank is done and acknowledged; after it nothing is left |
| TreeSafety.DecisionIsRight | src/state.cpp:639-652 | a positive result at the root is only possible when every rank is idle and acknowledged |
| TreeSafety.LiveWork | src/state.cpp:1441-1467 | work steps keep the tree invariant: sending or acknowledging work raises an alarm |
| TreeSafety.LiveRaise | src/state.cpp:642-657 | sending the flag up keeps the tree invariant |
| RingSafety.StepKeepsRingSafe | src/state.cpp:987-1049 | the ring invariant: visited ranks are done, or a black rank is ahead of the token, or the token is black |
| RingSafety.TransferKeepsRingSafe | src/state.cpp:1317-1320 | a transfer to a visited rank leaves a black rank ahead of the token |
| RingSafety.SendKeepsRingSafe | src/state.cpp:1022-1039 | passing the token on, with whitening, keeps the ring invariant |
| RingSafety.ReceiveKeepsRingSafe | src/state.cpp:907-972 | receiving it keeps the ring invariant, including the extra whitening on a black token |
| Invariants.StepKeepsBase | src/state.cpp:1545-1703 | every step of every configuration, sound or not, keeps pairing, receipts, conservation, wave, ring, framing and barrier-gate invariants |
| Invariants.BarrierCollectsEveryone | src/state.cpp:1664-1674 | when the root's barrier completes, every rank has entered it with nothing outstanding |
| WorkProtocol.StepKeepsPaired | src/state.cpp:1215-1272 | a rank with `work_requested` set has an empty queue and exactly one request or reply pending with the rank it asked; any other rank has none |
| WorkProtocol.StepKeepsBalanced | src/state.cpp:1379-1382 | `work_outstanding` equals transfers travelling plus receipts not yet taken |
| WorkProtocol.StepKeepsConserved | src/state.cpp:1110-1206 | queued, travelling and processed items together equal the items created |
| WorkProtocol.StepKeepsCounted | src/state.cpp:1564-1574 | the counters of all ranks together equal the number of items processed |
| TreeWave.ProbeFindsOnlyChildren | src/state.cpp:442-458 | while replies are missing, a waiting message comes from a child that has sent exactly one |
| TreeWave.RootSeesEveryone | src/state.cpp:460-496 | when the root has counted its children, every rank's message of this round has arrived |
| TreeWave.AbsorbKeeps | src/state.cpp:603-625 | counting a message keeps the wave invariant (edge states, reply counts, rounds at most one apart) |
| TreeWave.RaiseKeeps | src/state.cpp:639-657 | sending up keeps it |
| TreeWave.LowerKeeps | src/state.cpp:663-700 | taking the parent's message and passing it on keeps it |
| TreeWave.FinishKeeps | src/state.cpp:678-700 | completing at the root keeps it |
| TreeWave.NeverStuck | src/state.cpp:593-708 | some rank can always make the next move of a wave |
| BarrierRounds.BarrierIsSafe | src/state.cpp:425-522 | over any number of rounds: completion only after every rank has started that round, ranks at most one round apart, no parent's message taken for a child's |
| BarrierRounds.TestCallIsARun | src/state.cpp:428-522 | one call of the barrier test is a run of the barrier: which messages are taken and sent, the rank's state and round afterwards, exactly when it completes, and that no other rank changes; before the barrier is started the call does nothing and does not complete |
| HandlerRuns.BarrierCallIsARun | src/state.cpp:1671-1674 | at any rank in clean-up, whether it has started the barrier or not, that call is a run of the machine, and the rank leaves exactly if it completes |
| HandlerCalls.TermCallIsARun | src/state.cpp:593-708 | one call of the termination check is a run of the machine: the children's messages are taken, flag, counters, messages up and down and phase are as stated, and nothing else changes |
| HandlerCalls.FlagsAreAnded | src/state.cpp:601-625 | a call takes as many of the children's flags as are there and still needed, and the member stays set only if it was and all of them are |
| HandlerRuns.TokenCallIsARun | src/state.cpp:1003-1049 | one call of the ring's check is the ring's send step, its receive step or nothing, and the phase follows the colour |
| HandlerRuns.CleanUpTokenCallIsARun | src/state.cpp:1690-1702 | in clean-up no token arrives, and the test of a pending send is a step once it has been matched |
| HandlerRuns.RequestWorkCallIsARun | src/state.cpp:1215-1272 | one call is a run: a rank that waits for a reply takes the one that is there, stores and acknowledges its items; one that does not asks, if it is in the work loop; otherwise nothing happens |
| HandlerRuns.ReceiptCallIsARun | src/state.cpp:1441-1467 | one call is a run: it takes all receipts that are there, which never exceed the outstanding transfers, and clears the flag if there were any |
| ReduceCalls.ReduceCallIsARun | src/state.cpp:153-260 | one call with a reduction outstanding, given what the probe of each child finds in list order, is a run: it reads and removes the answers that are there and no others, and exactly if all children have then replied it answers the parent or delivers; nothing else changes |
| ReduceCalls.GatherAllReads | src/state.cpp:155-220 | polling counts the answers that are there, adds the counts of the valid ones, turns invalid exactly at an invalid one, and combines the data that come before that in order; a child without a message contributes nothing |
| ReduceCalls.IdleReduceCallIsARun | src/state.cpp:261-328 | one call with none outstanding is a run: it starts a round, refuses one from clean-up, or does nothing |
| ReduceCalls.GatheringIsARun | src/state.cpp:153-220 | reading the answers of given children in turn is a run that empties exactly their channels |
| RequestCalls.RequestCallIsARun | src/state.cpp:1472-1520 | one call of the request check is a run of the machine: all requests found are collected and each requestor is sent one block; blocks are empty in clean-up or without items and otherwise have the sizes of the split, and they stack up with what is kept to the old queue |
| RequestCalls.AnsweringIsARun | src/state.cpp:1427-1431 | answering the first requestors in turn is a run, with the stated effect on queue, replies, counter and colour |
| TokenRing.SingleToken | src/state.cpp:34-48 | the token's place is unique |
| TokenRing.ForwardsOwnColour | src/state.cpp:987-1000 | a rank other than 0 forwards a black token black and otherwise its own colour, and the whitening on receipt makes no difference to that |
| TokenRing.SendKeeps | src/state.cpp:888-903 | sending moves the single token to the next rank, whose own send is not pending |
| TokenRing.ReceiveKeeps | src/state.cpp:907-972 | receiving keeps it single and starts or forwards the terminate token in rank order |
| TokenRing.TestKeeps | src/state.cpp:1696-1701 | completing a pending synchronous send keeps it single |
| BackgroundReduce.NeverMisread | src/state.cpp:170-205 | the receiver never takes a body for a header and reads each answer completely |
| BackgroundReduce.GatherKeepsFraming | src/state.cpp:163-219 | reading an answer keeps every channel empty or holding exactly one well-formed answer |
| BackgroundReduce.ReplyKeepsFraming | src/state.cpp:222-260 | so does answering the parent |
| BackgroundReduce.RefuseKeepsFraming | src/state.cpp:288-302 | so does the invalid answer from clean-up |
| BackgroundReduce.BeginKeepsFraming | src/state.cpp:304-327 | so does starting a round |
| BackgroundReduce.BelowIsIdle | src/state.cpp:222-260 | with the root idle or all its children done, no other rank takes part |
| ReduceSum.RootResult | src/state.cpp:243-256 | at the root, for any operation, data is valid exactly if nobody refused; then the total is the sum of one count per rank, and the buffer combines the initial values of all ranks, each once and after its parent's; it is their fold in that order if the operation is associative, and in rank order if it is commutative as well |
| ReduceSum.GatherKeepsBalance | src/state.cpp:185-215 | combining a child's answer moves its count and the ranks behind its value to the parent and changes no total |
| ReduceRuns.DeliveredReductionIsCorrect | src/state.cpp:141-329 | the same in every reachable state of the whole machine, where no rank's count is above its counter of processed items |
| ReduceRuns.ReportedProgressIsRecent | src/state.cpp:141-329 | in any run from the start of a round to its valid end, the total delivered is at least the number of items processed at the start and at most the number processed at the end |
| ReduceRuns.SnapshotIsRecent | src/state.cpp:222-225 | each rank's count lies between its counter at the start of the round and its counter now |
| ReduceRuns.ReportedProgressIsReal | src/state.cpp:243-256 | the total a valid background reduction delivers never exceeds the number of items processed so far |
| ReduceRuns.ChildAnswersAlwaysParse | src/state.cpp:159-205 | in every reachable state what is probed from a child is one complete answer |
| FinalRun.FinalReductionDelivers | src/state.cpp:1705-1709 | in any execution, from the first step on: the count the root delivers at the end is the number of items processed by all ranks, and the value is the recursive result over the tree for any operation and the fold of all ranks' values in preorder for an associative one |
| FinalRun.FinalCountIsEverything | src/state.cpp:1705-1709 | in a sound configuration that count is the number of items ever created |
| FinalRun.FinalAnswersAreAlone | src/state.cpp:1597-1607 | once a rank has begun the final reduction, no message of the background reduction is in flight on the shared tag and no rank gathers any, so a channel holds nothing or exactly the child's final answer |
| FinalRun.FinalReductionMoves | src/state.cpp:353-411 | once all ranks have left, the final reduction can go on until every rank is done, in at most 3n steps |
| SyncReduce.SyncStepHolds | src/state.cpp:332-422 | every step of the message exchange keeps: each rank holds its own input combined with the children heard, each channel holds the answer from when it is sent until it is received |
| FinalReduce.ValueIsPreorderFold | src/state.cpp:353-394 | the recursive result of a rank is the fold of the values below it in tree preorder, by associativity alone |
| FinalReduce.PreorderIsPermutation | src/tree_state.cpp:45-68 | that preorder lists every rank exactly once |
| FinalReduce.RootCountIsTotal | src/state.cpp:366-367 | the recursive count of the root is the sum of all counts |
| FinalReduce.LoopComputesResult | src/state.cpp:353-394 | one rank's loop over its children computes its own result of the recursive definition |
| FinalReduce.LoopComputesCount | src/state.cpp:353-367 | likewise for the counts |
| KaryTree.ChildrenAreThoseWithParent | src/tree_state.cpp:45-68 | c is in r's child list if and only if r is c's parent |
| KaryTree.EveryRankHasOneParent | src/tree_state.cpp:45-68 | every non-root rank is in exactly one child list, once |
| KaryTree.ChildSetSize | src/tree_state.cpp:56-63 | the child count is the number of ranks naming r as parent |
| KaryTree.PathToRoot | src/tree_state.cpp:45-48 | following parents strictly decreases and ends at rank 0 |
| KaryTree.TreeState.constructor | src/tree_state.cpp:25-69 | the constructor's loops compute parent, child count and child list |
| PackedQueue.Queue.constructor | src/queue.cpp:29 | a new queue is empty |
| PackedQueue.Queue.ExtendStr | src/queue.cpp:68-84 | growing the offsets keeps the contents and grows by whole steps, no further than needed |
| PackedQueue.Queue.Extend | src/queue.cpp:90-106 | likewise for the byte pool |
| PackedQueue.Queue.Push | src/queue.cpp:116-160 | pushes an item of up to 2^32 - 1 bytes whole; a longer one is cut to its length modulo 2^32, and one for which that is 0 is refused and changes nothing |
| PackedQueue.Queue.Pop | src/queue.cpp:175-191 | returns and removes the top item; leaves an empty queue alone |
| PackedQueue.Queue.LastSize | src/queue.cpp:196-207 | size of the top item, or -1 as an unsigned size |
| PackedQueue.Queue.EmptyHasNoBytes | src/queue.cpp:175-191 | an empty queue has `head` 0 and no stored item is empty |
| PackedQueue.Queue.Write | src/queue.cpp:270-302 | drains the queue into the file text, top first; writes no file when empty |
| PackedQueue.Queue.Read | src/queue.cpp:225-260 | pushes the non-empty lines of the file on top of what is queued |
| PackedQueue.SaveAndRestore | src/queue.cpp:225-302 | a written and re-read queue is the original upside down if and only if its items hold no newline and no NUL |
| Checkpoint.RoundTripExactlyWhenPlain | src/queue.cpp:286-298 | the same for the file text, as an if-and-only-if |
| Checkpoint.CStringIsPrefix | src/queue.cpp:292-294 | of an item, the part before its first NUL is written, or all of it |
| Checkpoint.FileTextOfParts | src/queue.cpp:286-298 | items pushed later are written first, each followed by a newline, whatever they hold |
| Checkpoint.LinesExactly | src/queue.cpp:245-247 | the lines read hold no newline and together are the text, with or without a last newline |
| Checkpoint.AcceptedOneMore | src/queue.cpp:245-255 | each line read is pushed in turn, and reading goes on after an empty line, which is refused |
| Packing.UnpackSuffix | src/state.cpp:1322-1368 | cutting the bytes at an item and rebasing the offsets carries the upper items unchanged |
| Packing.UnpackPush | src/queue.cpp:144-157 | writing at `head` and recording the offset adds exactly one item on top |
| WorkSplit.SpreadCounts | src/state.cpp:1277-1292 | writes the shares into its part of the array and nothing else |
| WorkSplit.SharesAreFair | src/state.cpp:1274-1292 | the shares use up the count, differ by at most one, and the larger ones come first |
| WorkSplit.SizesAreFair | src/state.cpp:1409-1425 | either split keeps at least one item, uses up the count, and gives requestors shares that differ by at most one, the equal split the sender too; a random split sends the number drawn from 1 to count, or one less if that is all |
| WorkSplit.RandomSplitSendsAny | src/state.cpp:1416-1421 | the totals a random split can send are exactly those from 1 to count - 1, and only 0 for a single item |
| WorkSplit.ShipsOneList | src/state.cpp:1345-1368 | a packet determines the items it carries |
| WorkSplit.StackedKeepsItems | src/state.cpp:1427-1431 | what is kept and the blocks cut off partition the items as a multiset |
| RankState.CutLaws | src/state.cpp:1322-1377 | cutting the packed layout yields the kept prefix and the shipped suffix byte for byte |
| RankState.DarkenedExactly | src/state.cpp:1317-1320 | after answering several requestors a rank turns black exactly if some items went to a lower rank or to its predecessor, and otherwise keeps its colour |
| RankState.RebuildExactly | src/state.cpp:1162-1196 | laying a packet over the pool rebuilds its items if and only if no byte was in use below |
| RankState.AnswerRoundTrip | src/state.cpp:228-242 | an answer as sent is read back with its count, its validity and its data |
| RankState.Transfer | src/state.cpp:1110-1383 | a transfer to an empty queue: kept items followed by received items are the sender's queue as it was, and exactly a non-empty transfer is acknowledged |
| RankState.State.constructor | src/state.cpp:30-124 | a rank starts as the first states of all protocols say |
| RankState.State.SendWork | src/state.cpp:1310-1383 | ships exactly the top items, keeps the rest, counts the transfer, and turns black exactly if items go to a lower rank or to its predecessor in the ring |
| RankState.State.SendWorkToMany | src/state.cpp:1388-1436 | the blocks have the chosen sizes and stack up with what is kept to the old queue; the equal split is fair to all, a random one sends the number drawn |
| RankState.State.ChooseSizes | src/state.cpp:1399-1425 | computes fair sizes: of the whole queue for the equal split, of the number drawn for the random one |
| RankState.State.WorkReceive | src/state.cpp:1110-1206 | rebuilds the shipped items exactly when `head` was 0 and returns 0; answers with a receipt exactly then when there are items; the no-work reply returns 0, the abort marker -32 and anything else -1, and these change nothing, except that a first offset other than 0 leaves count and head alone with bytes and offsets already copied in |
| RankState.State.RequestWork | src/state.cpp:1215-1272 | asks, or takes the reply, or does neither, and records which; return code and receipt are those of the reply taken, also when it is malformed |
| RankState.State.WorkreceiptCheck | src/state.cpp:1441-1467 | takes receipts while transfers are outstanding and clears `term_flag` if it took any |
| RankState.State.WorkreqCheck | src/state.cpp:1472-1520 | answers every collected request once, with nothing in clean-up or when empty, else by dividing |
| RankState.State.TokenIsSend | src/state.cpp:888-903 | the token leaves and its send is pending |
| RankState.State.TokenRecv | src/state.cpp:907-972 | new colour, buffer and forwarding: terminates on the terminate token or, at rank 0, a white one; a black rank that receives a black token turns white |
| RankState.State.TokenCheck | src/state.cpp:974-985 | receives a token exactly if one has arrived |
| RankState.State.CheckForTerm | src/state.cpp:1003-1049 | an idle rank sends the token if it holds it, as the ring's send step, else looks for it |
| RankState.State.CheckForTermAllReduce | src/state.cpp:593-708 | with the shadowed flag or without: takes the flags there, does nothing more while transfers are outstanding, sends its flag up once all replies are in, takes the result or captures it at the root, and passes it down; it computes the function proved to be a run of the machine |
| RankState.State.BarrierStart | src/state.cpp:425 | marks the rank as ready |
| RankState.State.BarrierTest | src/state.cpp:428-522 | not started, it changes nothing and does not complete; started, it counts a child's message while replies are missing, sends up when all are in, and completes at the root or with the parent's message; it computes the function proved to be a run of the barrier |
| RankState.State.ReduceCheck | src/state.cpp:141-329 | reads exactly the answers that are there and, only with all children counted, answers or delivers; starts, refuses or does nothing, as the clock, the phase and the messages say |
| RankState.State.GatherAnswers | src/state.cpp:155-220 | the loop over the children counts and combines exactly the answers that are there, in order, and without any changes nothing |
| RankState.State.ReduceSync | src/state.cpp:332-422 | adds up and combines the children's answers in order, and answers the parent or delivers |

## Left out

- Abort broadcast, abort replies and checkpoint on abort (`src/state.cpp:762-885`, 1711-1719): `ABORT_FLAG`
  starts at 0 and its triggers are compiled out, so the model has no abort; only the abort marker
  in a reply is recognised.
- The main loop as a method: it is the transition system, whose guards say in which phase and under which
  conditions each handler runs. Runs that interleave the steps of one rank's handlers are allowed in addition.
- MPI itself: sends are taken to be buffered, so deadlock from blocking sends, error handlers and
  communicator set-up are not modelled.
- 32-bit overflow of rank times tree width, of counts and payload lengths in a work reply, and 64-bit wrap of `head`.
  The 32-bit length of a pushed item is modelled.
- Growth of the offset buffers (`src/state.cpp:1068-1107`), allocation failure and `MPI_Abort`.
- File errors while writing or reading a checkpoint other than a missing file; `fclose`'s result is 0.
- A reduce callback that is absent or supplies no buffer: init and operation callbacks are assumed present.
- Logging, summary, `dump`, `print`, profiling counters, bindings, signal handlers and the unfinished flexible queue.
- Fairness: bounds are in token sends, waves and steps, not in time; that an enabled step is eventually taken is not modelled.
- RankState.Transfer: is a round trip over two ranks that share no queue, written for the proof; the source has no such function.
- Queue and state sharing: `State` owns no second reference to its queue, so aliasing by the user callbacks is not captured.
