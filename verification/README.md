# Verification of libcircle's protocols and queue

libcircle is a distributed queue of strings on top of MPI. Every rank keeps a local pool of strings;
a rank without work asks a random other rank for some; and all ranks must agree when everything is
finished. This project models the C code of `libcircle/token.c`, `libcircle/worker.c` and
`libcircle/queue.c` and proves what the library relies on, for any number of ranks, any tree width
of at least 1, any interleaving and any message delay.

## How it is built

**The system of all ranks (tree mode).** `Protocol` is one state machine: the variables of every
rank and, per tag and pair of ranks, a FIFO channel (`Channels`; the ordering rule is section 3.5 of
the MPI 3.1 standard). It is put together from five components, each with its own steps and
invariant: `WorkTransfer` (requests, replies, receipts), `Termination` and `Barrier` (both instances
of the gather-and-scatter `Handshake` over the tree), `AbortSignal` and `BackgroundReduce` (with
`Declines`, on what a declining rank does to the result, and `Contributions`, on what it adds up;
`AbortSpread` shows that an abort is sent to every rank). A step is one receive at most, with the
local changes and sends that follow it, so that every interleaving of calls of the ranks is an
interleaving of steps. `Invariant` holds the inductive invariant; `Safety` says what it means. Its
core is `Invariant.Covered`: if a rank that has contributed to the current allreduce owes work, then
some rank that has not contributed has unacknowledged transfers or a cleared flag, or a 0 is on its
way up. That is the induction that the comment in worker.c:332-381 goes through by hand.

**Getting to the end.** `Liveness` and `Completion` bound the allreduce once no work is left and
show that it cannot be blocked. `CleanupLoad` measures what each rank still has to clear up in the
cleanup phase; `CleanupProgress` shows that the measure only falls, that it falls with every step
that clears something up, and that such a step is possible until all ranks have finished. `Ending`
puts this together: from every reachable state the system can reach the end.

**The code of one rank.** `TermRank`, `BarrierRank`, `AbortRank`, `ReduceRank` and `WorkRank` are
classes with the fields of `CIRCLE_state_st`, and their methods follow the C functions branch by
branch, with their loops, on a shared network of mailboxes (`Network`). Each method returns, as
ghost results, the steps of its component that it has taken, and says what it leaves undone: nothing
that a probe could have noticed. A set `late` of ranks, different from call to call, holds the
sources whose messages are in flight but which the probes do not notice yet. `WorkLoop.Rank` puts
the parts together: each call that `CIRCLE_work_loop` makes is a method, and `Lift` proves that what
it does is a sequence of steps of `Protocol`. `Passes` makes the calls of one pass through the main
loop and of one through the cleanup loop, and between any two calls the other ranks take any number
of steps of any kind (`Interleaving.Meanwhile`; `Passes.Yield` stands for them, and what is proved
relies on its contract alone). `CodeSafety.RunMain` and `CodeSafety.RunCleanup` state what holds of
the whole system when a pass returns. `WorkDiligence` (on the measure of `WorkWeight`),
`TermDiligence` and `CleanupDiligence` show that a pass in which no message stays unnoticed makes the
progress that its rank can make: some work is done, the allreduce gets further, something is cleared
up. A round (`Rounds.IsRound`) is a stretch of a run that holds a whole pass of every rank, however the
passes overlap. `Outcome` says how runs end: within a bounded number of rounds every rank is out of its
cleanup loop, unless some rank takes part in a background reduction without calling for reductions, in
which case none ever is. Background reductions are off by default (libcircle/lib.c:66-68), and then
there is no such rank (`Outcome.EveryDefaultRunEnds`). `AbortOutcome` shows that an abort reaches every rank within n - 1
rounds, and `Sharing` that a rank with items to spare sends some whenever it hears a request.

**The bytes.** `StringPool.Pool` is the string pool with its byte array and offset array; `CStrings`
says what strings a pool holds, gaps included; `Splitting` is the division of a queue among
requestors; `BlockTransfer` shows that sending and receiving on the pool are the steps of
`WorkTransfer` on the queue, and `Handle` that so is what a callback does to it; `Checkpoint` writes and reads checkpoint files; `SendTracking` is the
list of unfinished sends.

**Ring mode.** `Ring` is the coloured-token ring with work moving in one step, `TokenRing` the code
of one rank; `RingProgress` bounds how often the token moves once all ranks are idle.

**After the barrier.** `SyncReduce` and `AbortReduce` are the two blocking collectives that end an
invocation. A rank enters them when its cleanup loop ends, after its parent's
(`Safety.FinishedGoesDown`), while ranks below it may still be in theirs.

History variables (`round`, `epoch`, `gave`, `created`, `processed`, `laps`, `place`) are consulted
by no step.

## Where the code and its documentation disagree

- The comments of `CIRCLE_internal_queue_push`, `_pop`, `_write` and `_read` promise a positive
  value on success, and tests/check_checkpoint.c:22-35 expects one; the code returns 0
  (libcircle/queue.c:239, 274, 336, 353, 380). The model returns 0.
- A string of `CIRCLE_MAX_STRING_LEN - 1` characters may be pushed but does not survive a
  checkpoint, and neither does a string with a newline: `Checkpoint.LongestStringIsDamaged` gives
  the family of strings that lose their last character.
- Writing an empty queue leaves the checkpoint file of an earlier write where it is
  (libcircle/queue.c:352-354), and the next read pushes its strings: `Checkpoint.StaleFileIsRead`.
  `Checkpoint.CheckpointRoundTrip` gives the exact condition for a checkpoint to restore the queue,
  with these exceptions and no others: for an empty queue, that there was no file or an empty one
  (`Checkpoint.PlainIsRead`; for a file with NULs, which no checkpoint writes, that each line begins
  with one).
- `CIRCLE_internal_queue_push` compares the length of the string with the limit after it has been
  truncated to 32 bits (libcircle/queue.c:190-204). The checks accept exactly the strings that are
  short enough if and only if the string is not longer than a short one by a multiple of 4 GiB
  (`StringPool.CheckIsRight`); a string of 4 GiB is taken for an empty one
  (`StringPool.LooksEmpty`).
- The call at libcircle/token.c:1548 lacks an argument; it is read as `CIRCLE_send_no_work(st,
  dest)`. The branch is unreachable (`StringPool.Pool.ChooseCount`).

## Model

| member | source | states |
|---|---|---|
| Safety.TerminationSafety | libcircle/token.c:578-701 | in any reachable state, once some rank has received TERMINATE, no rank anywhere has items it would process, no item-carrying reply and no receipt is in flight, and every `work_outstanding` is 0, also when some ranks have aborted |
| Safety.ItemsConserved | libcircle/token.c:1503-1617 | at every moment of every run, the items created are, as multisets, those processed, those in queues and those in flight |
| Safety.ProcessedExactlyOnce | tests/check_deadlock.c:135-151 | without an abort, when some rank has received TERMINATE everything created has been processed exactly once |
| Safety.RequestDiscipline | libcircle/token.c:1376-1450 | a rank has at most one unanswered request in the whole system, its reply stream is cut at frame boundaries, and while it waits its queue is empty, so the overwriting receive destroys nothing |
| Safety.RequestorsFit | libcircle/token.c:1714-1747 | the requestors a rank has listed are distinct and at most size - 1, so the array of size entries suffices |
| Safety.AnySourceIsAChild | libcircle/token.c:591-615 | what MPI_ANY_SOURCE finds while children are missing is the only message on its edge, from a child of this round that has not been counted, never from the parent |
| Safety.AnySourceIsABarrierChild | libcircle/token.c:423-440 | the same for the barrier |
| Safety.OneMessagePerEdge | libcircle/token.c:591-693 | at most one TERM and one BARRIER message is in flight per tree edge, both directions together, and none elsewhere |
| Safety.CleanupQuiescence | libcircle/worker.c:385-441 | when the barrier has completed at some rank, every rank has started it and no message of any other kind is in flight, so every tracked send has been matched |
| Safety.FinishedGoesDown | libcircle/token.c:461-503 | the barrier completes from the root down: a rank leaves its cleanup loop only after its parent |
| Safety.DeliveryIsComplete | libcircle/token.c:183-220 | a background result that the root delivers as valid is the sum of exactly one recorded contribution of each rank, made in this very reduction; that what is recorded is what the ranks passed in is `Contributions.DeliveredIsSumOfCounts` |
| Safety.ValidExactlyIfAllGave | libcircle/token.c:183-220 | when the root has all results, what it holds is valid if and only if every other rank has contributed to this very reduction |
| Safety.DeclinedShows | libcircle/token.c:252-264 | once a rank has declined a reduction, in the cleanup phase, the root never delivers a valid result of it |
| Invariant.InvKept | libcircle/worker.c:332-381 | every step of every rank preserves the invariant behind these results |
| Invariant.CoveredKept | libcircle/worker.c:355-377 | if a rank that has contributed owes work, some rank that has not contributed objects, or a 0 is rising: kept by every step |
| Invariant.VerdictMeansQuiet | libcircle/token.c:632-648 | if the root's flag is 1 when it concludes, no rank owes anything |
| Invariant.ReachableInv | libcircle/worker.c:111-219 | the invariant holds in every state of every run from the initial state |
| Liveness.DetectedInThirdRound | libcircle/token.c:591-648 | once no work is left, at most two more rounds of the allreduce can yield 0: the third that the root completes yields TERMINATE |
| Liveness.FewTermSteps | libcircle/token.c:591-693 | from then on any run of any length holds at most 19n allreduce steps, however many rounds there have been before |
| Liveness.PotentialRises | libcircle/token.c:591-693 | every allreduce step raises a measure over the tree edges and no other step changes it |
| Liveness.NeverStuck | libcircle/token.c:591-693 | with no work left and some rank still in its main loop, some rank can take an allreduce step |
| Completion.SomeInitialState | libcircle/worker.c:111-219 | whatever is in the queues at first, there is an initial state, and it is reachable |
| Completion.AllreduceReachesEverybody | libcircle/token.c:591-701 | once no work is left, a run of at most 19n allreduce steps alone brings TERMINATE to every rank |
| CleanupProgress.CleaningKept | libcircle/worker.c:385-438 | once every rank has left its main loop, no step raises what is left to clear up, and each request drained, reply heard, abort message or reduction cleared up and barrier stage passed lowers it |
| CleanupProgress.FewCleanupSteps | libcircle/worker.c:385-438 | however the cleanup loops interleave, at most n(2n + 13) steps clear something up |
| CleanupProgress.CleanupNeverStuck | libcircle/worker.c:388-438 | as long as some rank is in its cleanup loop, and none in the main loop, some rank can clear something up; the barrier need not be started before the rank's sends are received |
| CleanupProgress.CleanupReachesEverybody | libcircle/worker.c:385-438 | from there every rank can finish its cleanup loop |
| Ending.SomethingToWorkOff | libcircle/worker.c:268-315 | as long as a rank has items to process or transfers to see acknowledged, an item can be processed, a transfer received or a receipt settled |
| Ending.EveryRunCanEnd | tests/check_deadlock.c:128-131 | no reachable state is a dead end: from each of them, with or without aborts, every rank can get to the end of its cleanup loop |
| Handshake.CountsChild | libcircle/token.c:591-615 | a counted message is the rising message of a child in the receiver's round |
| Handshake.RootReadyMeansAllCounted | libcircle/token.c:632-648 | when the root has all its children's messages, every other rank has contributed to this round |
| Handshake.RoundsNearRoot | libcircle/token.c:679-693 | no rank is ahead of the root or more than one round behind it |
| Handshake.CountKeepsInv | libcircle/token.c:591-615 | counting a child keeps `replies` equal to the number of children counted, and every edge consistent |
| Handshake.RaiseKeepsInv | libcircle/token.c:632-651 | so does sending to the parent |
| Handshake.ScatterKeepsInv | libcircle/token.c:679-693 | so does forwarding the answer and starting a new round |
| WorkTransfer.Callback | libcircle/worker.c:69-80 | whatever a callback enqueues and dequeues, no item is lost and none duplicated; what the queue is after it, and what it has enqueued and dequeued, is `Handle.RunCallback` |
| Handle.RunCallback | libcircle/worker.c:69-80 | running the calls of a callback on the pool, with the code of push and pop, leaves the queue that `WorkTransfer.Callback` says, and what it counts as enqueued and dequeued are exactly the strings that the calls have pushed and popped |
| Handle.ProcessOnPool | libcircle/worker.c:291-298 | so the process callback on the pool is a step of the work transfer, and the items created and processed by it are those pushed and popped |
| WorkTransfer.ListedRequestorsWait | libcircle/token.c:1730-1747 | every listed requestor is listed once, waits for this rank with an empty queue, has no other request or reply in flight, and has asked no other rank |
| WorkTransfer.ShareKeepsInv | libcircle/token.c:1594-1614 | sending items keeps the request discipline, the accounts of unacknowledged transfers, and the conservation of items |
| WorkTransfer.ReceiveKeepsInv | libcircle/token.c:1284-1366 | so does receiving them, although they overwrite the queue |
| WorkTransfer.RefuseKeepsInv | libcircle/token.c:1478-1498 | so does answering "no work" or the abort payload |
| WorkTransfer.SettleKeepsInv | libcircle/token.c:1684-1707 | so does receiving a receipt |
| AbortSignal.StartKeepsInv | libcircle/token.c:785-846 | each posted abort receive corresponds to exactly one request or reply in flight |
| AbortSignal.HearKeepsInv | libcircle/token.c:870-884 | answering a request keeps this |
| AbortSignal.NobodyWaiting | libcircle/token.c:886-895 | when no rank waits for abort replies, no abort message is in flight |
| AbortSpread.AbortIsSent | libcircle/token.c:785-846 | in every reachable state each tree neighbour of a rank in the abort state in its main loop is in the abort state too, or the request of the rank is on its way to it |
| AbortSpread.AbortReachesAll | libcircle/token.c:785-898 | so with all ranks in the main loop, one of them in the abort state and no request in flight, every rank has its abort flag set |
| AbortSpread.NoFalseAlarm | libcircle/token.c:855-898 | if no rank has aborted at first and no callback calls for an abort, no rank ever aborts |
| AbortSpread.RefusalTells | libcircle/token.c:1478-1498 | a refusal tells whether the rank that answers has aborted |
| AbortSpread.HearingAborts | libcircle/token.c:1293-1298 | a rank that hears that it has, aborts as well |
| BackgroundReduce.StepKeepsInv | libcircle/token.c:97-294 | start messages, results and payloads on an edge are exactly those the phase of the edge calls for; each child answers a start message once |
| BackgroundReduce.ResultIsWhole | libcircle/token.c:119-170 | what a rank finds from a child is one whole result: a payload follows exactly if the header announces one |
| BackgroundReduce.StartIsWhole | libcircle/token.c:238-246 | what an idle rank finds from its parent is one start message |
| BackgroundReduce.DeliveredTotal | libcircle/token.c:183-217 | a valid result at the root is the total over all ranks of what `gave` records, which is what they passed in by `Contributions.DeliveredIsSumOfCounts` |
| Contributions.DeliveredIsSumOfCounts | libcircle/token.c:183-220 | in every run, a valid total that the root delivers is the sum of the counts that the ranks have passed in at the steps with which they finished their parts of this very reduction, one step of each rank |
| Contributions.GivesOnce | libcircle/token.c:183-220 | no rank finishes its part of the same reduction twice |
| BackgroundReduce.FinishAnnounces | libcircle/token.c:183-220 | a rank that finishes sends up the sum of what it has gathered and its own count, and announces and sends its own bytes |
| Declines.StepShows | libcircle/token.c:115-180 | every step keeps that an invalid partial result has a reason: a rank below that has not contributed |
| Declines.MissedStays | libcircle/token.c:222-264 | a rank that has passed a reduction by never contributes to it later |
| BackgroundReduce.NobodyBusy | libcircle/worker.c:394-399 | when no rank has a reduction outstanding, no reduce message is in flight |
| TermRank.TermState.CountAll | libcircle/token.c:591-615 | the loop over children takes only receive steps and leaves no visible message while children are missing |
| TermRank.TermState.CheckForTerm | libcircle/token.c:578-701 | a call is a sequence of allreduce steps of which only the last may complete a round; it returns TERMINATE exactly if that round's result is 1; with transfers outstanding it only counts children; otherwise it leaves undone only what was not visible |
| BarrierRank.BarrierState.Test | libcircle/token.c:405-507 | a call is a sequence of barrier steps, complete exactly if the last one completes the barrier, and it takes none only if none was possible |
| AbortRank.AbortState.NeighbourListIsNeighbours | libcircle/token.c:806-840 | the parent followed by the children lists each tree neighbour once |
| AbortRank.AbortState.Start | libcircle/token.c:785-846 | entering the abort state in the main loop sends exactly one request to each tree neighbour and to nobody else, and waits for the reply of each; nothing is sent in cleanup or a second time |
| AbortRank.AbortState.TestAll | libcircle/token.c:886-892 | the test succeeds exactly if every reply has come and the sends are complete |
| AbortRank.AbortState.Check | libcircle/token.c:855-898 | a set flag leads to the abort state, a visible request is answered, and abort messages stay outstanding only while a reply or a send is missing |
| ReduceRank.ReduceState.HearAll | libcircle/token.c:115-180 | the loop receives every visible result, whole |
| ReduceRank.ReduceState.Finish | libcircle/token.c:183-220 | finishing adds exactly the count to what was gathered, sends the sum up with the rank's validity and bytes, and delivers exactly a valid result at the root |
| ReduceRank.ReduceState.Check | libcircle/token.c:97-294 | a call is a sequence of reduction steps that fits the phase; if the part of the rank is done after it, the last step adds the count passed in; a result is delivered exactly if that happens at the root and is valid, and it is the total over all ranks; when a reduction is started, declined or finished is fixed by what is visible |
| WorkRank.WorkState.ReceiptCheck | libcircle/token.c:1678-1709 | every visible receipt is settled while transfers are outstanding, and the flag is cleared exactly if there was one |
| WorkRank.WorkState.DrainAll | libcircle/token.c:1724-1747 | every visible request is listed, within the bounds of the array |
| WorkRank.WorkState.SendWork | libcircle/token.c:1503-1617 | a requestor gets at most the items meant for it, and "no work" exactly if none are |
| WorkRank.WorkState.ShareAll | libcircle/token.c:1622-1673 | every listed requestor gets items exactly if the split means some for it, and no more than these; at least one item is kept |
| WorkRank.WorkState.RequestCheck | libcircle/token.c:1714-1782 | a call answers every request that is visible: with "no work" in cleanup, after an abort, with a backlog of sends or without items, and otherwise as the split divides the queue, each requestor with a positive share getting items; the queue never becomes empty by it |
| Sharing.NobodyIsTurnedAway | libcircle/token.c:1637-1668 | in equal mode a rank with more items than requestors sends some to each of them |
| Sharing.FirstIsServed | libcircle/token.c:1637-1668 | in either mode a rank with two items or more sends some to its first requestor |
| Sharing.SharesIfItCan | libcircle/token.c:1714-1782 | a rank in the main loop without an abort or a backlog sends items away if and only if it has two or more and receives a request |
| Sharing.AlertRankShares | libcircle/token.c:1714-1782 | so it does if a request is there and it notices every request |
| WorkRank.WorkState.WorkReceive | libcircle/token.c:1255-1367 | a reply is one whole frame: "no work", the abort payload, or items that replace the queue and are acknowledged |
| WorkRank.WorkState.RequestWork | libcircle/token.c:1376-1450 | a call hears the visible reply of the rank asked, or asks the next rank exactly when it may and then picks another one to ask next, and does nothing else |
| WorkRank.PathKeepsDiscipline | libcircle/token.c:1376-1450 | whatever a call does, the request discipline holds after it |
| Passes.MainPass | libcircle/worker.c:268-315 | a pass, while the other ranks act between its calls: it does its upkeep under the loop's guards, asks for work exactly if the queue is then empty, processes an item exactly if the queue is then not empty and the rank has not aborted, and otherwise checks for termination |
| Passes.CleanupPass | libcircle/worker.c:386-438 | a pass starts the barrier exactly if the rank waits for nothing and its sends are done, tests it, and unless it is complete drains requests, reductions, replies and abort messages |
| Passes.Feed | libcircle/worker.c:286-289 | work is requested exactly if the queue is empty |
| Passes.Act | libcircle/worker.c:291-314 | an item is processed exactly if there is one and the rank has not aborted; otherwise the rank checks for termination |
| WorkLoop.Rank.CheckAbort | libcircle/token.c:855-898 | the call is a sequence of abort steps and leaves nothing undone but what was not visible |
| WorkLoop.Rank.CheckBarrier | libcircle/token.c:405-507 | the call is a sequence of barrier steps, and takes none only if none was possible |
| Interleaving.MeanwhileLeavesAlone | libcircle/worker.c:268-438 | whatever steps the other ranks take, they change none of a rank's variables |
| Interleaving.OthersPass | libcircle/worker.c:268-438 | what one rank does in its calls is, for another rank, a part of what happens between its own calls |
| Interleaving.MeanwhileOn | libcircle/worker.c:268-438 | and so is any sequence of such things |
| Lift.LiftTerm | libcircle/token.c:578-701 | the steps of a termination check are steps of the whole protocol: TERMINATE is the rank leaving its main loop |
| Lift.LiftCall | libcircle/worker.c:268-438 | every call of the loops is a sequence of protocol steps of its rank, with the same effect on all variables and messages |
| Interleaving.TraceEnds | libcircle/worker.c:268-438 | the calls of a pass, with the steps of other ranks between them, lead from a reachable state to a reachable state, and the rank leaves its loop exactly if the last call says so |
| Passes.ReadyToRun | libcircle/worker.c:268-438 | every reachable state meets what a call requires |
| CodeSafety.MainPassSafety | libcircle/worker.c:300-314 | when a pass of a rank returns TERMINATE, no rank has items it would process and no transfer or receipt is in flight |
| CodeSafety.RunMain | libcircle/worker.c:268-315 | running one pass through the main loop from any reachable state, while the other ranks act between its calls, leads to a reachable state; if it returns TERMINATE, no rank anywhere has work and no transfer or receipt is in flight; with nothing unnoticed, and whether or not background reductions are enabled, it takes the allreduce further if no work is left and the rank can, and it gets work done if any is left, the rank can do some and its callback dequeues |
| CodeSafety.CleanupPassSafety | libcircle/worker.c:385-441 | when a pass of a rank finds the barrier complete, all have started it and nothing else is in flight |
| CodeSafety.RunCleanup | libcircle/worker.c:386-441 | running one pass through the cleanup loop, while the other ranks act between its calls, leads to a reachable state; if it finds the barrier complete, all have started it and nothing but barrier messages is in flight; with nothing unnoticed it clears something up if the rank can, and either calls for reductions or takes part in none |
| CodeSafety.Wider | libcircle/worker.c:268-438 | a stretch of a run that contains such a pass makes at least that progress: what the others do before and after it does not undo it |
| TermDiligence.PassIsDiligent | libcircle/worker.c:291-314 | once no work is left, a pass in which nothing stays unnoticed takes the allreduce further, if its rank could at the beginning of the pass, whatever the others do meanwhile |
| CleanupDiligence.PassIsDiligent | libcircle/worker.c:386-438 | once every rank has left its main loop, a pass in which nothing stays unnoticed lowers what is left to clear up, if its rank could clear anything up; a pass without the call for reductions does so if its rank takes part in none |
| CleanupDiligence.UnneededForGood | libcircle/worker.c:411-415 | once every rank has left its main loop, a rank that takes part in no reduction never will again |
| AbortDiligence.PassIsDiligent | libcircle/worker.c:278-279 | a pass through the main loop in which nothing stays unnoticed takes the rank into the abort state if its flag is set, or a request on its way to it, when the pass begins |
| WorkDiligence.PassIsDiligent | libcircle/worker.c:268-298 | as long as no item is created, a pass with nothing unnoticed and a callback that dequeues lowers what is left to do, if its rank could process an item, receive items or settle an account |
| WorkDiligence.Does | libcircle/worker.c:268-315 | as long as no item is created, nothing that any rank does adds to what is left to do, and what takes nothing from it leaves every queue, account, receipt and transfer |
| WorkDiligence.LeftBound | libcircle/worker.c:268-315 | what is left to do is at most 5 for each item that is left, 4 for each rank and 1 for each unacknowledged transfer |
| WorkWeight.StepWeighs | libcircle/token.c:1503-1709 | as long as no item is created, every send and receive of items, receipt and dequeue takes something from the total and no other step adds to it |
| WorkWeight.OnlyDequeues | libcircle/worker.c:69-80 | a callback that enqueues nothing and calls for a dequeue makes the queue shorter |
| Rounds.RoundOfRun | libcircle/worker.c:268-438 | a stretch of a run that holds a whole pass of every rank, in any order and however they overlap, makes the progress that any rank could make at its beginning |
| Rounds.FinishedRankRests | libcircle/worker.c:401-404 | a rank that has left its cleanup loop, and makes no more passes, holds up no round |
| Rounds.WorkRound | libcircle/worker.c:268-315 | as long as work is left, every round in which no item is created gets some of it done |
| Rounds.TermRound | libcircle/worker.c:268-315 | with no work left, every round takes the allreduce further as long as a rank is in its main loop |
| Rounds.CleanupRound | libcircle/worker.c:386-438 | and what is left to clear up gets less until all ranks have finished |
| Rounds.FewWorkRounds | libcircle/worker.c:268-315 | from any reachable state, once no item is created any more, no work is left after at most as many rounds as there is left to do |
| Rounds.FewTermRounds | libcircle/worker.c:268-315 | once no work is left, every rank leaves its main loop within 19n rounds |
| Rounds.FewCleanupRounds | libcircle/worker.c:386-438 | and then every rank its cleanup loop within n(2n + 13) rounds, if every rank that takes part in a reduction calls for reductions |
| AbortOutcome.AbortRound | libcircle/worker.c:268-315 | as long as all ranks are in their main loops, and some but not all in the abort state, every round brings another one into it |
| AbortOutcome.AbortReachesEverybody | libcircle/token.c:785-898 | within n - 1 rounds an abort has reached every rank, unless ranks have left their main loops before |
| Outcome.CleanupEndsExactlyIf | libcircle/worker.c:386-438 | when every rank has left its main loop, all cleanup loops end, within n(2n + 13) rounds, if and only if every rank that takes part in a reduction calls for reductions |
| Outcome.DeafRankBlocks | libcircle/worker.c:411-415 | a rank that takes part in a reduction and never calls for reductions keeps every rank in its cleanup loop for ever |
| Outcome.EverybodyFinishes | tests/check_deadlock.c:128-131 | once no work is left, the code of the ranks neither deadlocks nor runs for ever |
| Outcome.EveryRunEnds | tests/check_deadlock.c:128-131 | nor does it from any reachable state on, once the callbacks, which dequeue when they are called, create no more items |
| Outcome.EveryDefaultRunEnds | libcircle/lib.c:66-68 | with background reductions off, as they are by default, this holds of every run from the start, without further condition |
| Tree.RootAboveAll | libcircle/token.c:56-58 | every rank hangs below rank 0 |
| Tree.SiblingsApart | libcircle/token.c:56-80 | the subtrees of two children of one rank have no rank in common |
| TreeInit.KidRange | libcircle/token.c:56-63 | the children computed as an interval are exactly the ranks whose computed parent this rank is |
| TreeInit.ChildListIsKids | libcircle/token.c:61-80 | the child list names every child once, in increasing order, and has at most k entries |
| TreeInit.ListsPartitionRanks | libcircle/token.c:56-80 | every rank but the root is in the child list of exactly one rank, its parent |
| TreeInit.TreeState.constructor | libcircle/token.c:27-83 | the parent, the number of children and the array of children, padded with MPI_PROC_NULL, are those of the tree |
| CStrings.BlockIsTransfer | libcircle/token.c:1569-1588 | the bytes from the first string of a block on, with rebased offsets, decode to exactly its strings in order, whatever gaps the pool has |
| CStrings.OneStringFits | libcircle/token.c:1545-1550 | a single string is never too long to be sent |
| CStrings.BackedOff | libcircle/token.c:1529-1543 | the back-off ends with at least one item and a block that fits, or never backs off |
| CStrings.BackOffIsTight | libcircle/token.c:1529-1543 | all items are sent if their block fits, and otherwise the last number that was found too large is larger by no more than a tenth, or by one |
| CStrings.TransferFitsInt32 | libcircle/token.c:1552-1585 | when the block fits, so does every number of the offsets message |
| CStrings.DroppedStack | libcircle/token.c:1610-1611 | lowering the count and leaving the head keeps a well-formed stack of the remaining strings |
| StringPool.Pool.constructor | libcircle/queue.c:24-53 | a new pool is an empty stack |
| StringPool.Pool.StrExtend | libcircle/queue.c:123-146 | growing the offset array keeps the stack |
| StringPool.Pool.Extend | libcircle/queue.c:152-173 | growing the pool keeps the stack |
| StringPool.Pool.Push | libcircle/queue.c:183-241 | pushes exactly the string, or fails on a null pointer or a string that is too long and changes nothing, with the length computed in 32 bits as in the code |
| StringPool.CheckIsRight | libcircle/queue.c:190-204 | the length checks accept exactly the short strings if and only if the string is not longer than a short one by a multiple of 4 GiB |
| StringPool.LooksEmpty | libcircle/queue.c:190-204 | a string of 4 GiB passes the checks, with the length of an empty one |
| StringPool.Pool.Pop | libcircle/queue.c:250-275 | takes the last string off and returns it, or fails on an empty queue or without a buffer and changes nothing |
| StringPool.Pool.ChooseCount | libcircle/token.c:1517-1550 | computes the backed-off count and a length that fits; the error branch for a single item that is too large is unreachable |
| StringPool.Pool.TakeBlock | libcircle/token.c:1517-1616 | the queue is what is kept followed by what the two messages decode to |
| StringPool.Pool.ReceiveBlock | libcircle/token.c:1304-1356 | an empty queue becomes exactly the strings the messages decode to; the base-offset check never fires |
| StringPool.PushedStack | libcircle/queue.c:221-239 | writing a string at the head pushes it, also above a gap |
| StringPool.PoppedStack | libcircle/queue.c:268-273 | dropping the last offset and lowering the head pops |
| StringPool.ReceivedStack | libcircle/token.c:1317-1354 | the strings of a transfer at the bottom of the pool form a stack that ends where the last string ends |
| StringPool.BlockDecodes | libcircle/token.c:1517-1611 | sender's queue == kept prefix + what the receiver decodes |
| BlockTransfer.SendIsStep | libcircle/token.c:1503-1617 | a reply made from the pool is a step of the work transfer: the bare code a refusal, the two messages a share of the number of items that the back-off has arrived at |
| BlockTransfer.SendToMany | libcircle/token.c:1622-1673 | answering all requestors from the pool is a sequence of such steps, after which the pool holds the queue of the protocol's state; each requestor gets all items that the split means for it, or if their block is too long, as many as the back-off arrives at |
| BlockTransfer.ReceiveItems | libcircle/token.c:1284-1366 | receiving a transfer into the empty pool makes it hold the queue after the receive |
| Splitting.SharesAddUp | libcircle/token.c:1455-1473 | the shares add up to the whole, differ by at most 1, and the larger ones come first |
| Splitting.SpreadCounts | libcircle/token.c:1455-1473 | the two loops compute these shares in place and touch nothing else |
| Splitting.SendTotal | libcircle/token.c:1651-1657 | in random mode fewer items are sent than there are, and at least one if there are two |
| Splitting.AnyTotal | libcircle/token.c:1651-1657 | every number from one item to all but one may be sent in random mode |
| Splitting.Split | libcircle/token.c:1637-1662 | in both modes the shares add up to the queue and the kept share is at least 1; in equal mode all shares differ by at most 1, in random mode those of the requestors, which get something if there are two items |
| Splitting.SendWork | libcircle/token.c:1503-1617 | the reply carries the top of the queue: all items meant for the requestor if their block fits, otherwise as many as the back-off arrives at, and the bare code if none are meant for it |
| Splitting.SendAll | libcircle/token.c:1664-1668 | every send takes the next strings off the top, all that are meant for the requestor unless they are too long, also when an earlier send has backed off; what was to be kept is kept |
| Splitting.ServedMeans | libcircle/token.c:1664-1668 | reply i carries all of its share, or its block is too long |
| Splitting.SendWorkToMany | libcircle/token.c:1622-1673 | the old queue is what is kept followed by what the replies carry, each its share of the split unless that is too long, and something is kept |
| SendTracking.SendList.Track | libcircle/token.c:1101-1128 | the send is added at the end, through any growth of the arrays |
| SendTracking.SendList.Check | libcircle/token.c:1134-1159 | every send is tested exactly once; those left are the multiset of incomplete ones; exactly the buffers of the complete ones are freed |
| SendTracking.SendList.FreeAll | libcircle/token.c:1180-1189 | every buffer still owned is freed once |
| SendTracking.NothingLeaks | libcircle/token.c:1134-1159 | buffers still owned and buffers freed are together the buffers owned before |
| Checkpoint.Write | libcircle/queue.c:347-381 | drains the queue and writes its strings from the top down, over what the file held; an empty queue leaves the file as it was |
| Checkpoint.Read | libcircle/queue.c:285-337 | pushes what the lines of the file parse to, and fails if there is no file |
| Checkpoint.CheckpointRoundTrip | libcircle/queue.c:285-381 | whatever the file held before, writing a queue and reading it back gives the reversed queue if and only if either the queue is not empty and every string is free of newlines and at most CIRCLE_MAX_STRING_LEN - 2 long, or the queue is empty and there was no file or a blank one; without NULs, blank means empty |
| Checkpoint.BlankIsUnread | libcircle/queue.c:313-333 | nothing is read from a file if and only if every line that fgets takes begins with a NUL |
| Checkpoint.PlainIsRead | libcircle/queue.c:313-333 | from a file without NULs nothing is read if and only if it is empty |
| Checkpoint.SavedIsPlain | libcircle/queue.c:367-377 | writing checkpoints leaves the file without NULs |
| Checkpoint.SaveAndLoad | libcircle/queue.c:285-381 | calling the code of the write and then of the read has this effect on the pool |
| Checkpoint.TwoRoundTrips | libcircle/queue.c:285-381 | under that condition two round trips give back the queue |
| Checkpoint.StaleFileIsRead | libcircle/queue.c:347-354 | an empty queue that is written over an earlier checkpoint comes back with the strings of that one |
| Checkpoint.LongestStringIsDamaged | libcircle/queue.c:311-325 | a string of CIRCLE_MAX_STRING_LEN - 1 characters comes back without its last character, followed by an empty string |
| Ring.ExactlyOneToken | libcircle/token.c:900-991 | there is always exactly one token, held by one rank or in flight as the only message |
| Ring.WaitNeverBlocks | libcircle/token.c:945-952 | when MPI_Wait on the previous token send is reached, that message has been received |
| Ring.SendSlotIsFree | libcircle/token.c:1049-1070 | when an idle rank sends the token, its previous token send is complete |
| Ring.RingSafety | libcircle/token.c:966-991 | a white token at rank 0, or a TERMINATE token anywhere, means that every rank is idle |
| Ring.StoppedMeansIdle | libcircle/token.c:1029-1034 | once some rank has stopped, all ranks are idle for good |
| Ring.DetectedInThirdLap | libcircle/token.c:1049-1070 | once all ranks are idle, at most two more tokens come back black |
| Ring.TokenMoves | libcircle/token.c:1029-1078 | while all are idle and some rank has not stopped, the token can move |
| Ring.BlackHasSentBack | libcircle/token.c:1505-1515 | a rank is black only because it has sent work to a rank below it or to the one before it |
| Ring.BlackTokenWhitens | libcircle/token.c:961-964 | a rank that receives a black token is not black after it |
| RingProgress.FewTokenSteps | libcircle/token.c:1029-1078 | once all ranks are idle the token moves fewer than 8n times, in any run of any length |
| RingProgress.StuckMeansStopped | libcircle/token.c:1029-1078 | while all are idle, the token cannot move if and only if every rank has stopped |
| RingProgress.TokenStopsEverybody | libcircle/token.c:1029-1078 | so from any such state fewer than 8n moves of the token stop every rank |
| Ring.InvKept | libcircle/token.c:900-1078 | every step keeps the single token and the colour invariant |
| TokenRing.TokenState.constructor | libcircle/worker.c:121-138 | the ring neighbours computed with remainders are the ranks before and after |
| TokenRing.TokenState.Issend | libcircle/token.c:900-919 | a token send, also the one of TERMINATE during a receive, is made only when the request it overwrites is complete |
| TokenRing.TokenState.Recv | libcircle/token.c:922-993 | a receive does what the state machine's step does, and its wait does not block |
| TokenRing.TokenState.Check | libcircle/token.c:997-1010 | a visible token is received, and nothing else happens |
| TokenRing.TokenState.CheckForTerm | libcircle/token.c:1029-1078 | a call at an idle rank sends the token, or receives it, or does nothing |
| TokenRing.CheckedIsSafe | libcircle/token.c:1029-1078 | a call at an idle rank leads from a reachable state to a reachable one, and a rank that has then stopped knows every rank idle |
| TokenRing.RunCheckForTerm | libcircle/token.c:1029-1078 | running the check from any reachable state leads to a reachable state, and TERMINATE is returned only when every rank is idle |
| TokenRing.RunDrain | libcircle/worker.c:425-437 | so does the part of the cleanup loop for the ring: a token that is there is received and a token send that has been received is found complete |
| SyncReduce.RootDeliversFold | libcircle/token.c:297-396 | whatever the speeds of the ranks, the root delivers the fold over the tree of any user operation |
| SyncReduce.FoldCoversEveryRank | libcircle/token.c:297-396 | the count delivered is the total over all ranks, and for an associative operation the data is that of every rank, each taken once |
| SyncReduce.GathersFold | libcircle/token.c:324-364 | a receive from the next child yields that child's whole result |
| SyncReduce.NothingLeft | libcircle/token.c:367-381 | when every rank has finished, no message is left |
| SyncReduce.NothingForOutsiders | libcircle/worker.c:443-448 | no message of the final reduction is on its way to a rank that is still in its cleanup loop, whose probes might take it for one of the background reduction |
| SyncReduce.NeverStuck | libcircle/token.c:324-381 | the blocking receives do not deadlock |
| SyncReduce.EachRankOnce | libcircle/token.c:324-364 | every rank is in the order of combination exactly once |
| SyncReduce.ReduceSync | libcircle/token.c:297-396 | the loop over the children computes the fold of the subtree, empties the children's links and sends one whole result up |
| AbortReduce.FinishedHoldsOr | libcircle/token.c:705-761 | a rank that has finished holds the OR of the flags of all ranks |
| AbortReduce.InvKept | libcircle/token.c:705-761 | every step of every rank keeps partial results equal to the OR over the ranks gathered |
| AbortReduce.NothingLeft | libcircle/token.c:743-751 | when all have finished, no message is left |
| AbortReduce.NeverStuck | libcircle/token.c:722-741 | the blocking receives do not deadlock |

## Left out

- MPI itself: requests, errors, communicators and buffering are abstract; a send succeeds at once, a message stays in flight for any time, and whether MPI finds a send complete is arbitrary, also in the condition for starting the barrier. That the ranks go on passing through their loops, and that MPI lets them notice what is there, is what `Rounds` and `Outcome` assume.
- Out-of-memory branches, MPI_Abort and exit: allocation succeeds.
- Logging, profiling counters and the summary after the loop (libcircle/worker.c:541-584): output only.
- The clock and rand_r: arbitrary values in range, passed as parameters; CIRCLE_get_next_proc is any rank but its own.
- Overflow of `head`, `count`, tree and reduce arithmetic: integers are unbounded; the 32-bit lengths and offsets of a transfer are modelled.
- StringPool.Pool.Push: excludes the strings that are longer than a short one by a multiple of 4 GiB. For them the code makes room for the truncated length and then copies the whole string (libcircle/queue.c:226-227), which has no meaning in the model.
- Handle.RunCallback: the strings that a callback enqueues are C strings, without a NUL, and not of the lengths that StringPool.Pool.Push excludes.
- StringPool.Pool.Pop: a null queue pointer cannot occur.
- WorkRank.WorkState.SendWork: the queue is the sequence of the strings that `StringPool.Pool` holds, and the back-off for a block that is too long is any smaller number of items; that the number computed from the bytes is one of them, with the same effect, is `BlockTransfer`.
- ReduceRank.ReduceState.Check: the user's data is its number of bytes; in `SyncReduce` it is modelled whole.
- CIRCLE_reduce with zero bytes after one with data (libcircle/lib.c:202-226), which leaves the old size in place.
- Ring mode with transfers in flight or with an abort: the ring never consults `work_outstanding`, and CIRCLE_token_issend sends nothing after an abort.
- Tree widths of 0 or less, for which the parent is not defined.
- Checkpoint.Write and Checkpoint.Read: opening a file that exists, opening one for writing, writing and closing succeed; the name of the file is not modelled.
- The list of unfinished sends is proved in `SendTracking` and is not a part of `WorkLoop.Rank`, whose passes do not change it; nor is the token check of ring mode (libcircle/worker.c:425-437), which is `TokenRing.RunDrain`.
- Passes.MainPass and Passes.CleanupPass: the other ranks act between the calls of a pass, not inside a call; that what a call does is a sequence of steps, which may be interleaved with any others, is `Lift.LiftCall`.
- AbortReduce: the code of one rank is a state machine, as its second receive waits for other ranks.
- SyncReduce.ReduceSync: a blocking receive is a receive whose message is there; that the messages come is SyncReduce.NeverStuck.
- User callbacks other than enqueueing, dequeueing and aborting; other threads using the handle.
- libcircle/lib.c, and experimental/flex_queue, which is unfinished.
