# Verified models of the four homework servers

This project models four stateful programs of the repository in Dafny and proves properties of
all their runs.

* **Movie ranking (HW4).** A request's movies are filtered, scored and sorted by a fork/join merge
  sort over one shared range. The leaf sort compares plain titles and appends a secret key to each;
  the merges compare titles with their keys. The array code is a class with loops proved against
  specification functions (`MovieData`, `Requests`); the running threads and processes are a small-step
  machine (`ForkJoin`, `ForkJoinRuns`); the PROCESS build's shared buffers and pointers are a second
  machine below it (`SharedBuffers`), and a third lets aborted processes leave orphans behind that run
  on beside their parents (`Orphans`). `SortTree` says what the recursion of either build leaves for
  *any* titles and scores, and exactly when that is the ranking by plain titles.
* **Booking servers (HW1).** Any number of read and write servers, each with its client slots and its
  `self_lock` counters, share one record file under the kernel's record locks. `BookingServer` holds
  `handle_read` and the code after it, as methods on the slot table and as the function they compute;
  `BookingRuns` holds the runs of all servers.
* **Thread scheduler (HW3).** `Scheduler` holds the two queues as arrays updated in place, with
  conservation and bounded bypass; `Threads` and `ThreadRuns` hold the three thread functions as
  suspended and resumed code, under any arrival of signals and FIFO data.
* **Tournament (HW2).** `Battle` holds one battle; `Network`, `Confluence`, `Tokens`, `Relays`, `Rounds`,
  `Schedule` and `Championship` hold the processes and pipes of any bracket; `Tournament` holds the plain
  tournament and double elimination; `Wiring` holds the program's own tables and brings all together.

`dafny verify dfyconfig.toml` checks everything. A few predicates of the sort are *folded*: their
definition stands behind a quantifier that only a marker term instantiates, so that the proofs that
only carry them along do not unfold the recursive functions in them.

## Where the code does less than it seems to

* The key can turn the order of two titles round (`Titles.SecretCanInvert`). What is written is the
  ranking by plain titles if and only if no leaf holds two negative scores and no pair of equal score
  crosses at a merge (`Requests.LinesRankedIff`, for the shipped key `Requests.ShippedLinesRankedIff`);
  titles whose bytes all lie above the tab never cross. The two builds merge at different places, so
  they can write different lines for the same request (`Requests.BuildsCanDiffer`); if the THREAD build
  sorts the request as one leaf, they agree if and only if nothing crosses in the PROCESS build
  (`Requests.LinesAgreeIff`).
* `argmax` aborts on negative scores, but not on every one of them: exactly when a leaf range holds two.
  In the THREAD build that ends the server (`MovieData.Data.MergeSort`, `ForkJoinRuns.ThreadsEndIff`).
  In the PROCESS build it ends one process: the server itself if and only if two of the last sixteenth
  of the matching movies have negative scores, whatever the interleaving (`Orphans.ServerEndsIff`).
  Otherwise its parent goes on, merges the unsorted range, and may do so while children of the dead
  process are still writing to it: then the leaves are not fine, and not every run leaves the sorted
  list (`Orphans.ServerSortsIff`).
* A dropped client's lock is not always given back: exactly an end of connection and a reader's line
  other than "Exit" leave it behind (`BookingRuns.LockLeftBehindIff`).
* A ready thread can be passed over for ever while others trade places; the bound on how often must count
  the threads woken meanwhile (`Scheduler.BoundedBypass`, `ThreadRuns.ThreadStarves`). That takes two
  threads that read; the `main` that is shipped creates one at most (HW3/main.c:52-59).

## Model

| member | source | states |
|---|---|---|
| Titles.SecretKeepsOrderIff | HW4/lib.c:34-51 | a sound key leaves the strcmp order of two titles alone if and only if neither extends the other by a rest below the key |
| Titles.StrCmpIs | HW4/lib.c:78 | strcmp is negative exactly if one title ends where the other goes on or has the smaller byte where they first differ, and zero exactly on equal titles |
| Titles.SecretCanInvert | HW4/lib.c:38 | two titles whose order the shipped key turns round |
| Titles.PrintableNeverInverts | HW4/lib.c:38 | titles of bytes above the key's first byte are safe |
| Ranking.SortedUnique | HW4/server.c:88-100 | two sorted arrangements of the same entries are equal, so the tie rule of the merge cannot show |
| Ranking.RankedMeans | HW4/server.c:88 | in the ranking every entry has a higher score than those after it, or the same score and no later title, and every entry has its place |
| Ranking.RankedSorts | HW4/lib.c:10-31 | the reference ranking is a sorted permutation |
| Ranking.MergeSorts | HW4/server.c:87-117 | merging two sorted runs, right one first on a tie, gives a sorted permutation of both |
| MovieData.Data.ArgMax | HW4/lib.c:68-84 | finds the head of the range's ranking; the closing assertion fails if and only if no score is non-negative |
| MovieData.Data.Swap | HW4/lib.c:86-94 | exchanges two slots and nothing else |
| MovieData.Data.Place | HW4/lib.c:14-24 | one round of selection takes the next entry of the ranking, with the key, and keeps the rest of the ranking |
| MovieData.Data.Sort | HW4/lib.c:10-31 | leaves the range ranked by plain titles with one key each, touches nothing else, and aborts exactly on two negative scores |
| MovieData.Data.TakeAll | HW4/server.c:87-114 | the merge loops fill the buffer with the merge of the two halves |
| MovieData.Data.TakeRest | HW4/server.c:102-114 | the two closing loops take the half that is left |
| MovieData.Data.MergeHalves | HW4/server.c:75-121 | the range becomes the merge of its halves, nothing else changes |
| MovieData.Data.MergeSort | HW4/server.c:123-158 | leaves what the recursion leaves, and aborts exactly when a leaf holds two negative scores |
| Requests.Cross | HW4/server.c:66-72 | the score is the dot product of the two profiles, which `DotSymmetric`, `DotAdditive`, `DotHomogeneous` and `DotUnits` determine |
| Requests.DotSymmetric | HW4/server.c:66-72 | movie and request can change places in the score |
| Requests.DotAdditive | HW4/server.c:66-72 | the score is additive in the movie's profile |
| Requests.DotHomogeneous | HW4/server.c:66-72 | the score grows in proportion to the movie's profile |
| Requests.DotUnits | HW4/server.c:66-72 | weight on one genre each scores 1 if the genre is the same and 0 otherwise |
| Requests.MatchesIff | HW4/server.c:248 | a movie matches exactly on the keyword "*" or if its title is some text, the keyword and some text |
| Requests.FillAll | HW4/server.c:247-260 | the slots hold the matching movies with their scores, in list order |
| Requests.MatchingLists | HW4/server.c:247-260 | these are the movies at increasing places of the list, all that match and no other, each with its own title and score |
| Requests.DealRequest | HW4/server.c:236-289 | the THREAD build's lines are the titles the recursion leaves of the matching movies; aborted exactly when a leaf holds two negative scores |
| Requests.LinesRankedIff | HW4/server.c:279-287 | the lines that either build's result gives list every matching movie once, one key each, by falling score and rising plain title, if and only if no leaf holds two negative scores and nothing crosses at a merge |
| Requests.ShippedLinesRankedIff | HW4/lib.c:38 | the same for the key of the shipped library |
| Requests.LinesAgreeIff | HW4/server.c:140-157 | the builds write the same lines if and only if both write the ranking, provided one of them does, as the THREAD build does on a request it sorts as one leaf |
| Requests.BuildsCanDiffer | HW4/server.c:205-233 | two movies for which the builds write different lines, the PROCESS build's not the ranking |
| Requests.OrdinaryRequest | HW4/server.c:247-260 | non-negative profiles and printable titles never abort and never cross, in either build |
| SortTree.TreeRanksIff | HW4/server.c:140-157 | for both recursion trees and all inputs: the result is the ranking by plain titles if and only if nothing crosses at a merge |
| SortTree.TreePermutes | HW4/server.c:87-117 | the recursion loses and invents nothing |
| SortTree.NodeDelivers | HW4/server.c:156 | merging what two halves were left with gives what the whole is left with |
| SortTree.NonNegativeLeaves | HW4/lib.c:82 | non-negative scores never abort a leaf, in the recursion of either build |
| SortTree.ThreadsSurviveIff | HW4/server.c:140-157 | the THREAD recursion comes back if and only if no leaf holds two negative scores |
| SortTree.ProcessSurvivesIff | HW4/server.c:205-233 | the PROCESS server's own process comes back if and only if at most one of the last sixteenth of the entries has a negative score |
| SortTree.ResultRanksIff | HW4/server.c:205-233 | what either recursion leaves, aborts included, is the ranking by plain titles, one key each, if and only if no leaf holds two negative scores and nothing crosses |
| SortTree.ResultIsTreeIff | HW4/server.c:230-231 | an abort shows: the result is the tree's order with one key each if and only if no leaf holds two negative scores |
| SortTree.MergeByIsMerge | HW4/server.c:88 | without crossings, comparing titles with the key is comparing without |
| SortTree.SortedMergeUncrossed | HW4/server.c:88 | conversely a merge that comes out in plain order had no crossing |
| SortTree.PrintableUncrossed | HW4/lib.c:38 | printable titles never cross in either build |
| ForkJoin.StepOwes | HW4/server.c:75-158 | every step of every interleaving, whatever the scores, keeps what each running task owes and writes only inside that task's range |
| ForkJoin.OwesFrame | HW4/server.c:137-157 | what a task owes depends on its own range only |
| ForkJoin.TakeTurnOwes | HW4/server.c:87-114 | one turn of the merge loops keeps the outcome of the merge |
| ForkJoin.ScanTurnOwes | HW4/lib.c:73-81 | one turn of argmax keeps the best entry so far |
| ForkJoinRuns.RunningDisjoint | HW4/server.c:137-138 | the ranges of running tasks never share a slot |
| ForkJoinRuns.StepStaysInside | HW4/server.c:116-117 | a step writes only inside the range of the one task that takes it |
| ForkJoinRuns.CanStep | HW4/server.c:150-156 | no unfinished task is ever stuck unless a thread has failed in `argmax` |
| ForkJoinRuns.FailingMeans | HW4/lib.c:82 | a thread fails only if its leaf holds two negative scores |
| ForkJoinRuns.StepRank | HW4/server.c:123-158 | every step brings the machine closer to its end |
| ForkJoinRuns.EveryRunSorts | HW4/server.c:123-158 | every interleaving of either build stops within a bound; a root task that is over has left what the sequential recursion leaves, and has come back if and only if that does |
| ForkJoinRuns.ThreadsEndIff | HW4/lib.c:82 | a THREAD run that cannot go on has finished if no leaf holds two negative scores, and otherwise has a failed thread |
| ForkJoinRuns.RunRanksIff | HW4/server.c:123-158 | a finished run has ranked by plain titles if and only if no leaf holds two negative scores and nothing crosses |
| ForkJoinRuns.BuildsAgree | HW4/server.c:205-233 | where no leaf holds two negative scores and one build ranks, the builds leave the same array if and only if both rank |
| ForkJoinRuns.SmallBuildsAgreeIff | HW4/server.c:140-141 | on a request that the THREAD build sorts as one leaf, finished runs of the builds agree if and only if nothing crosses in the PROCESS build |
| SharedBuffers.StepSimulates | HW4/server.c:161-233 | every step of the forked processes keeps each buffer in one slot's hands and shows a step of the fork/join machine |
| SharedBuffers.WriteThroughShows | HW4/server.c:215-218 | a leaf's strcpy changes what one slot shows and no other |
| SharedBuffers.OthersKeep | HW4/server.c:222-231 | a step of one process leaves what the others hold and show |
| SharedBuffers.ProcessRunSorts | HW4/server.c:205-233 | when all processes have ended, after any interleaving without orphans at a merge, the slots point to the original buffers, each once, and show what the recursion leaves |
| Orphans.PCanStep | HW4/server.c:222-231 | an unfinished process can always go on, whatever orphans write |
| Orphans.ServerStepFated | HW4/server.c:222-231 | every step of every process, orphans included, keeps the slots and buffers that the server's own leaf will sort untouched, and brings the whole closer to its end |
| Orphans.ServerEndsIff | HW4/server.c:222-231 | in every run, orphans included, the server's own process is not stuck before its end, and is aborted there if and only if two of the last sixteenth of the movies have negative scores |
| Orphans.ServerBound | HW4/server.c:205-233 | no run of the processes, orphans included, is longer than a bound in the number of movies |
| Orphans.FineServerSorts | HW4/server.c:205-233 | if no leaf holds two negative scores nothing is ever aborted or orphaned, and every finished run leaves the tree's order, one key each |
| Orphans.OrderlyRun | HW4/server.c:205-233 | on all scores there is a run to the end, which leaves what the recursion leaves |
| Orphans.ServerSortsIff | HW4/server.c:230-231 | of the requests that do not abort the server, those whose every finished run is in the tree's order, one key each, are exactly those without a leaf that holds two negative scores |
| Parser.MyAtoi | HW1/server.c:382-405 | computes what the turn-by-turn reading of the message accepts |
| Parser.CommandRoundTrip | HW1/server.c:382-405 | every command text of three integers is read back as these integers |
| Parser.ParseThree | HW1/server.c:397-400 | an accepted command has exactly three numbers |
| Parser.FieldsAccepted | HW1/server.c:382-405 | three fields, of digits and of minus signs that stand before every digit but zero, each ended by a byte that is no letter, are accepted as the three numbers written, whatever follows |
| Parser.OnlyFieldsAccepted | HW1/server.c:382-405 | nothing else is accepted: a letter, a minus after a digit other than zero, or a missing end refuses the command |
| Parser.AtoiRoundTrip | HW1/server.c:121 | an id typed in decimal is read back |
| Parser.AtoiIs | HW1/server.c:121 | an id is what the digits after blanks and one sign are worth, for every text |
| Booking.JudgeAccepts | HW1/server.c:190-215 | the early-exit total and the sign test accept exactly the commands whose result is in bounds |
| Booking.JudgeTooMany | HW1/server.c:192-203 | code 2 exactly when a running total passes fifteen |
| Booking.JudgeIs | HW1/server.c:190-215 | all three codes, entry by entry |
| Booking.Apply | HW1/server.c:190-218 | the three loops compute the verdict and update the record if and only if it is accepted |
| BookingServer.Server.MyLockFunction | HW1/server.c:407-441 | counter and kernel lock after a lock or unlock, for both servers |
| BookingServer.Server.HandleReadAt | HW1/server.c:72-238 | computes the function of one call, returned value included, and touches no other slot |
| BookingServer.Server.Ask | HW1/server.c:120-174 | the part that reads an id, checks and locks, for both servers; `BookingRuns.ShownIff` says who is shown a record |
| BookingServer.Server.Command | HW1/server.c:175-233 | the part that applies a command and unlocks; `BookingRuns.NoLostUpdate` says what is then in the file and in the reply |
| BookingServer.Server.ServeAt | HW1/server.c:308-374 | the call and the slot recycling after it, keeping every slot servable |
| BookingServer.ServeKeepsSlot | HW1/server.c:314-372 | an id is set in exactly the slots whose client is viewing a record |
| BookingRuns.ServeEffect | HW1/server.c:72-238 | a call either leaves the locks alone, or shows and locks one record, or ends one viewing and unlocks, booking only accepted numbers |
| BookingRuns.ShownIff | HW1/server.c:120-174 | in every reachable state a client that sends its first line is shown the present record of that id if and only if there is one and no lock of another server, nor for writing a client of the same server, stands against it; otherwise it is dropped and nothing else changes |
| BookingRuns.TypedIdShown | HW1/server.c:120-174 | so whoever types one of the twenty ids is shown its record if and only if it is available |
| BookingRuns.ViewingEnds | HW1/server.c:84-118 | what every input but a writer's command does to a client that has been shown a record, its lock, the file and the server |
| BookingRuns.UnseenEnds | HW1/server.c:84-105 | the same for a client that has not been shown one and sends no line |
| BookingRuns.ConnectIs | HW1/server.c:292-299 | a new client starts unserved in a servable slot, and disturbs no other client, no lock and no record |
| BookingRuns.CodeIs | HW1/server.c:72-238 | the returned value for every input and every state |
| BookingRuns.LockLeftBehindIff | HW1/server.c:85-118 | a client is dropped with its lock still counted exactly on these inputs |
| BookingRuns.StepKeeps | HW1/server.c:272-376 | every step of any server keeps the invariant of counters, locks, slots and shown states |
| BookingRuns.WriterAlone | HW1/server.c:147-163 | in every reachable state a client between "shown" and "applied" is the only one viewing its record, on any server |
| BookingRuns.ShownIsCurrent | HW1/server.c:136-144 | in every reachable state a viewing client was shown what the file holds |
| BookingRuns.SnapshotStable | HW1/server.c:107-146 | a record never changes while a client keeps viewing it |
| BookingRuns.NoLostUpdate | HW1/server.c:175-233 | an accepted command updates exactly the state its client was shown, a refused one nothing; the reply holds the record as it then is, and the lock is given back |
| BookingRuns.ReadersCounted | HW1/server.c:428-438 | a read server holds the read lock if and only if its counter is positive, and counts at least its viewers |
| BookingRuns.StepBooks | HW1/server.c:217-221 | a record changes by accepted commands and by nothing else |
| BookingRuns.LedgerLaw | HW1/server.c:186-221 | every record always equals its first state plus all accepted commands |
| BookingRuns.BoundsKept | HW1/server.c:190-215 | a record within its bounds never leaves them |
| BookingRuns.EveryInputServed | HW1/server.c:308-312 | whatever a client sends, a reachable server has a step for it; on a line without a newline (HW1/server.c:91-102) that step is the server's end |
| Scheduler.ThreadQueues.WakeUp | HW3/scheduler.c:31-43 | the compaction loop moves exactly the readable threads, order kept |
| Scheduler.PassKeepsOrder | HW3/scheduler.c:31-43 | a pass moves the threads whose FIFO has data and keeps the others, both in their order, and loses none |
| Scheduler.ThreadQueues.RemoveCurrent | HW3/scheduler.c:46-60 | the three branches on the reason |
| Scheduler.ThreadQueues.Reenter | HW3/scheduler.c:24-87 | a whole call with its idle loop, and when it returns |
| Scheduler.CallIs | HW3/scheduler.c:46-84 | which thread goes on after a call, and where every other one then is: the next slot after a yield, the last ready thread in the freed slot after a read or an exit, the first slot after the last, the woken ones after an idle pass |
| Scheduler.ThreadQueues.Create | HW3/threadtools.h:56-72 | a new thread goes to the end of the ready queue |
| Scheduler.CallConserves | HW3/scheduler.c:31-86 | a call keeps every thread but an exiting one; it returns exactly when the last thread exits |
| Scheduler.EachQueuedOnce | HW3/scheduler.c:31-86 | over every run each thread not yet exited is in exactly one place, the queues fit, and the dispatched index is in range |
| Scheduler.StepPotential | HW3/scheduler.c:46-84 | distance plus queue size falls by one a call, but for two per woken thread |
| Scheduler.BoundedBypass | HW3/scheduler.c:31-84 | a ready thread is passed over at most twice per ready and per woken thread |
| Scheduler.StarvedWithWakeups | HW3/scheduler.c:50-54 | for every n a run of the queues of n calls that never dispatches a ready thread |
| Answers.RunValueIsGreatest | HW3/threads.c:57-60 | the printed maximum is the greatest sum over all runs of consecutive numbers |
| Answers.SuffixValueIsGreatest | HW3/threads.c:59 | the running value is the greatest sum of a non-empty suffix |
| Threads.Block.Fibonacci | HW3/threads.c:6-24 | the loop body on the tcb |
| Threads.Block.Collatz | HW3/threads.c:30-47 | the loop body on the tcb; `ThreadRuns.LinesRight` says what its lines are |
| Threads.Block.MaxSubarray | HW3/threads.c:54-71 | the loop body on the tcb, around its suspension |
| Threads.ResumeStands | HW3/threads.c:3-72 | each stretch of code prints the next right line and exits after the last one only |
| ThreadRuns.StepKeeps | HW3/threadtools.h:74-101 | every step keeps RUNNING on the executing tcb and every thread's output right |
| ThreadRuns.LinesRight | HW3/threads.c:3-72 | whatever signals and data arrive when, each thread's lines are the first of those it prints alone, and all of them at its exit: Fibonacci numbers from 1, 1; for `collatz` positive numbers, each half of an even or three times an odd predecessor and one; the greatest sums over the runs of the numbers read |
| ThreadRuns.SignalSwitches | HW3/threadtools.h:82-92 | in every run a pending signal at a thread_yield hands the processor to the next slot, round the queue with the woken threads; without one the thread goes on |
| ThreadRuns.RunningIsExecuting | HW3/scheduler.c:86 | RUNNING always denotes the tcb whose code executes, and the scheduler returns only when all threads are gone |
| ThreadRuns.NeverStuck | HW3/threadtools.h:94-101 | running code can always go on, and reads only numbers that have arrived |
| ThreadRuns.ThreadStarves | HW3/threads.c:50-72 | for every n a run of three threads, two of them `max_subarray`, in which a ready thread does not run for n stretches of code |
| Battle.Ring.Play | HW2/battle.c:53-79 | one round, of which `RoundIs` says what it does |
| Battle.RoundIs | HW2/battle.c:53-79 | the combatant with fewer points, on a tie the lower id, wins unharmed if one strike of it suffices; otherwise each loses the other's ATK, doubled on the hitter's own ground; both flags are set exactly if somebody is beaten |
| Battle.Ring.Battle | HW2/battle.c:132-148 | the round loop ends with the statuses of the whole fight, the survivor named |
| Battle.FightEnds | HW2/battle.c:53-79 | a fight ends within the weaker one's points in rounds, exactly one beaten, both flags set |
| Battle.FightIs | HW2/battle.c:132-148 | a fight is full exchanges while nobody can be beaten, and one last round |
| Battle.RecoveryFit | HW2/player.c:131-132 | a recovered winner has between its left and its first points |
| Battle.RecoveryIs | HW2/player.c:131-140 | a winner gets the mean of its left and its first points, rounded down, a loser its first points; only points and flag change |
| Network.Contender.Take | HW2/player.c:118-141 | what a player does with a status from its parent |
| Network.OwnEnds | HW2/battle.c:95-125 | every pipe has one reader and one writer |
| Confluence.Diamond | HW2/battle.c:127-174 | steps of two processes commute |
| Confluence.NoSecondHand | HW2/player.c:136-146 | no agent is ever about to be handed a second loser |
| Confluence.AllRunsFinish | HW2/battle.c:127-174 | if one run finishes, no run is longer, every run can be continued to the same end in as many steps, and none is stuck before |
| Tokens.StepTokens | HW2/battle.c:127-169 | between a process and its parent there is always exactly one token |
| Tokens.OneStatusPerPipe | HW2/battle.c:127-169 | a pair of pipes never holds more than one status |
| Relays.Pass | HW2/battle.c:152-169 | relay transparency: through any number of finished battles a status and its answer pass unchanged |
| Relays.Dismiss | HW2/battle.c:163-166 | a last status takes its relays with it, and a beaten player hands over its restored status |
| Rounds.AllRounds | HW2/battle.c:132-148 | the rounds over the pipes compute the fight |
| Rounds.BattleEnds | HW2/battle.c:138-161 | the loser's side exits, the winner goes up recovered |
| Rounds.FinalEnds | HW2/battle.c:150-176 | everybody exits and A prints the champion |
| Schedule.PlaySubtree | HW2/battle.c:95-169 | a subtree sends up its winner and hands its losers to their agents, nothing else changes |
| Championship.OneRunFinishes | HW2/battle.c:81-178 | from the start there is a run to the end |
| Championship.EveryRunCrowns | HW2/battle.c:81-178 | for any bracket all interleavings have the same end, champion and number of steps; no run is longer or stuck before |
| Championship.EveryRunBounded | HW2/player.c:107-114 | at most one status per pipe pair, at most one handed to an agent, exactly one at the end |
| Tournament.ContestSound | HW2/player.c:127-138 | of two sound combatants one wins and one loses, and both go on sound |
| Tournament.DoubleElimination | HW2/player.c:34-59 | everybody loses twice, but for one loss spared to the winner of the winners' bracket and one to the champion |
| Tournament.LossesInAll | HW2/player.c:136-148 | fourteen losses, at most one of them the champion's |
| Tournament.CombatantsDiffer | HW2/battle.c:15-17 | nobody meets itself in any battle |
| Wiring.TablesAgree | HW2/battle.c:15-17 | the numbered bracket is that of the tables, with targets and agents |
| Wiring.TablesAre | HW2/battle.c:15-17 | parents, children, battle numbers, grounds and agents of all fourteen battles, entry by entry |
| Wiring.TargetsAre | HW2/player.c:47-59 | the battle that each player and agent enters |
| Tournament.ResultsWired | HW2/battle.c:15-17 | the plain tournament plays every battle of the tables between its own combatants |
| Wiring.ResultsSolve | HW2/player.c:101-114 | the board of the plain tournament gives every process of the network its first status |
| Wiring.EveryTournament | HW2/battle.c:171-174 | for all fit players every interleaving ends, in the same number of steps, with all processes gone and the champion of the plain tournament printed, and is not stuck before |
| Wiring.BoardRuns | HW2/battle.c:171-174 | the same for any board that plays every battle between its own combatants |
| Wiring.EveryPipe | HW2/player.c:136-146 | at most one status per pipe pair, and exactly one loser for each agent |

## Left out

* Sockets, poll and accept failures, log files, prompts, mkfifo, unlink and file opening: client input, readiness and arrival are free choices of the environment. Error messages written to clients and log lines are not modelled.
* HW1: one call of `handle_read` with the code after it is one step; the gap between F_GETLK and F_SETLK inside a call, in which another server could take the lock, is not modelled. Nor is the order in which `main` visits its slots.
* HW1: buffers are C strings of any length; a read of 512 bytes without a terminating NUL, and numbers beyond the range of int, are not modelled. The text of a booking state is represented by the state.
* HW1: nothing is claimed about locks being given back in the end; `LockLeftBehindIff` says when they are not.
* HW3: setjmp, longjmp, signal masks and the alarm are represented by program points and by a signal that may or may not be pending in `thread_yield`. A read of a FIFO delivers one whole number; short reads are not modelled. A first call of the scheduler without threads is not modelled.
* HW3: arguments with which a thread function does not end by `thread_exit` are excluded (below 1, or below 2 for `collatz`); termination of `collatz` is not claimed, nor fairness without counting woken threads.
* HW2: all processes exist from the start; a process that its parent has not forked yet is one that has not taken its first step. Opening a FIFO is represented by the agent's `mkfifo` alone: the writer waits for it. Players start fit, with a cleared flag.
* HW4: scores are real numbers and come from given profiles; normalisation, parsing and allocation failures are not modelled. Titles are strings without NUL that fit their buffers; a char stands for an unsigned byte.
* HW4: a leaf of the PROCESS build copies its range and sorts the copy in one step; the library's sort that it calls is `MovieData.Data.Sort`. No other process touches the range meanwhile, except orphans, whose half-finished writes such a copy could then catch. What a run leaves in which orphans write beside a merge is not stated, beyond the server's own fate.
* HW4: the PROCESS build's filter loop, the same as the THREAD build's but for the copies of the titles, and its habit of serving request 0 only are not modelled. Requests do not share data, so one request is modelled.
* Integers are unbounded throughout.
* ForkJoinRuns.RunningDisjoint: of the PROCESS build only where orphans have ended before a merge starts; with orphans it fails, and `Orphans.ServerStepFated` states what they leave alone.
* ForkJoinRuns.BuildsAgree: where titles cross in both builds nothing is said about their agreement, because no test on the request shorter than both recursions is known.
