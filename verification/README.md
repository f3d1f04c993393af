# A verified model of the process module

This project models the process-supervision half of a Rust utility crate and
proves what its protocols keep. It covers the event pump behind a child process,
the handles that wait for and kill the child, the reaper that kills leftovers of
an earlier run, the record files that the reaper trusts, the atomic publication
of those files, the supervisor that restarts children, and the byte-level line
reader.

`dafny verify dfyconfig.toml` checks everything.

## How it is built

Code that changes state step by step is modelled twice: as a class or a method
with loops that follows the source branch by branch, and as functions on values
that the class is proved to compute. The classes of the pump and the supervisor
keep the source's loops; the point that the supervisor has reached in its code is
ghost state. The properties of whole runs are lemmas
about those functions.

| file | what it models |
|---|---|
| `Pump.dfy`, `PumpTask.dfy`, `PumpProofs.dfy`, `PumpProgress.dfy` | the pump: what each wake-up does, the loops that do it in place, what every interleaving keeps, and what requests and timers achieve |
| `Handle.dfy` | waiting on a child and killing it, against the outcome slot of a pump run |
| `Processes.dfy`, `Reaper.dfy` | a world in which pids are reused, the system calls that look at it at some moment, and the reaper on top |
| `StartToken.dfy`, `Descendants.dfy` | the boot-bound start token, the descendant closure and the merge of two captures |
| `RecordCodec.dfy`, `Decimal.dfy`, `PidFiles.dfy` | the epoch record as text, and the pid file around the reaper |
| `Publication.dfy` | any number of publishers against one directory, interleaved at every system call |
| `Supervisor.dfy`, `SupervisorTask.dfy`, `SupervisorGrammar.dfy`, `SupervisorSlot.dfy`, `SupervisorHandshake.dfy`, `SupervisorLimits.dfy`, `SupervisorEndings.dfy`, `SupervisorReadiness.dfy`, `SupervisorAcknowledgement.dfy`, `SupervisorProofs.dfy` | the supervision loop beside concurrent callers, as functions and in place; groups of invariants; and the theorems built from them |
| `Backoff.dfy`, `Storm.dfy` | restart delays and the sliding storm window |
| `LineReader.dfy` | `read_line` over arbitrary buffer chunks |
| `Basics.dfy` | options, results, error kinds, bytes |

A run is a script of moves, and every theorem is about every script. A move that
the source's guards exclude at that point has no effect. Where the source polls
in a biased order the model allows any ready arm, so the theorems hold for more
interleavings than can occur; only the supervisor's first look at its token is
kept in front of the rest, and there too the token may be cancelled between that
look and the others.

## What is assumed

- Time is a natural number. A timer that a select waits for is handled before
  time passes it; handling takes no time. The supervisor's sleeps and readiness
  timers may end at any moment.
- An incarnation of a process has a fixed executable and fixed start ticks, never
  comes back once gone, and differs in its ticks from every other incarnation
  under the same pid. A zombie stays a zombie. A zombie's executable link cannot be
  read, and that of a running process can be read unless the call is denied.
- System calls may fail at any time. The bytes of an executable's base name and of
  a boot id are whatever the kernel delivers.
- Children of one supervisor have pairwise distinct, non-zero pids.
- Staging names of publishers are those built from a process id and that process's
  counter. Stale staging files of any name may lie in the directory at the
  beginning; nobody else touches it.
- `Duration` and `u64` limits are explicit where the arithmetic meets them
  (`Backoff.dfy`, `StartToken.dfy`, `RecordCodec.dfy`); counters that only count
  events are unbounded.

## Where the code does less than one might expect

- Line splitting depends on how the stream is buffered as soon as a carriage
  return precedes a line feed: `LineReader.ChunkIndependence` gives the exact
  condition, and `LineReader.ChunkDependent` the two chunkings that differ.
- A file name accepted as an epoch's need not be the one generated for it:
  `core-+07.pid` is read as epoch 7. `RecordCodec.AcceptedName` gives the exact
  condition and `RecordCodec.PaddedNameAccepted` the example.
- Jitter keeps a delay within a quarter of its base for bases from one nanosecond
  to the point where 64-bit arithmetic overflows, and for no others
  (`Backoff.JitterWithinQuarter`).
- A lone empty stderr line at the end is lost (`PumpProofs.TailReconstructed`), as
  the source says.
- The documentation of `RestartPolicy` calls a storm guard a future addition; the
  code has it, and so does the model.
- Without process handles the signal goes by pid after a last look
  (`Reaper.KillRevalidatedByPid`), and the pid may have changed hands by then:
  `Reaper.FallbackWindow` is a run that hits a stranger.
- A stale staging file can keep a publisher from publishing over a free name, and
  then every publisher is told that the record exists although none does. The
  staging counter begins at 0 in every process, so a process that gets the id of a
  crashed one draws the same names. `Publication.RaceHasOneWinner` gives the exact
  condition, `Publication.StaleFileStopsThePublisher` the smallest case.

## Model

| member | source | states |
|---|---|---|
| PumpTask.PumpTask.Run | src/process/engine.rs:327-543 | the three loops in place, run over any script of wake-ups, leave exactly the described state, and from the beginning one that satisfies the joint invariant; a script may end anywhere |
| PumpTask.PumpTask.DrainArm | src/process/engine.rs:360-447 | every arm of the first select has the effect described for its wake-up |
| PumpTask.PumpTask.FinishArm | src/process/engine.rs:461-481 | every arm of the second select has the effect described for its wake-up |
| PumpTask.PumpTask.FlushArm | src/process/engine.rs:514-541 | every arm of the flush select has the effect described for its wake-up |
| PumpTask.PumpTask.HandleCtrl | src/process/engine.rs:178-233 | a kill clears the hard deadline and kills, a graceful kill only brings the deadline forward or kills when the signal fails, a write does neither; tells whether the process is now dying |
| PumpTask.PumpTask.AbandonIfDeserted | src/process/engine.rs:353-358 | once receiver and handles are gone the tree is killed, and the loop remembers it |
| PumpTask.PumpTask.BeginFlush | src/process/engine.rs:491-513 | the terminal events are queued after the pid file is cleaned up, and an unread channel ends the pump at once |
| PumpTask.PhasesGoForward | src/process/engine.rs:352-543 | the loops are entered in order and never again |
| PumpProofs.RunInv | src/process/engine.rs:352-543 | order, loss count, outcome, stall timer, flush deadline, channel capacity and abandonment are kept by every interleaving |
| PumpProofs.SentInOrder | src/process/engine.rs:352-513 | what was sent is a prefix of the output read, then a prefix of the terminal events; the latter only when the output has ended and the drop count is all that is missing of it; the channel is never overfilled |
| PumpProofs.TerminatedComesLast | src/process/engine.rs:493-542 | `Terminated` is sent at most once and last, behind every line of the stderr tail, the drop report exactly when something was dropped, and the finish error when there is one; outputs sent and dropped add up to the source |
| PumpProofs.DropReportTells | src/process/engine.rs:497-501 | the drop report determines the number it reports |
| PumpProofs.OneOutcome | src/process/engine.rs:387-399 | the outcome is announced at most once, and before any terminal event is sent or the pump returns, with the pid file cleaned up by then |
| PumpProofs.OutcomeStays | src/process/engine.rs:451-490 | an announced outcome never changes |
| PumpProofs.TerminatedAgrees | src/process/engine.rs:483-505 | when the announced outcome is an exit, `Terminated` carries the same payload |
| PumpProofs.PendingIsResolvedInTime | src/process/engine.rs:371-374 | an event pending in a dying pump is sent, discarded or dropped within five seconds of being armed, whatever requests arrive meanwhile; until then neither it nor its deadline changes |
| PumpProofs.NothingWaitsAfterStall | src/process/engine.rs:400-426 | after the first stall nothing is pending again and no output is sent |
| PumpProofs.FlushEndsInTime | src/process/engine.rs:507-542 | the flush ends within five seconds for each terminal event, whatever the receiver does |
| PumpProofs.DeadlineNeverPostponed | src/process/engine.rs:178-233 | a hard-kill deadline stays and never moves later, also across kills that leave it set, until a kill of the tree clears it |
| PumpProofs.DeadlineStep | src/process/engine.rs:195-207 | one step never moves a deadline later, whether or not it kills, and drops it only when it kills |
| PumpProofs.DeadlineForcesKill | src/process/engine.rs:379-386 | while the process is watched no time passes a deadline without the tree having been killed |
| PumpProofs.DesertionKillsOnce | src/process/engine.rs:353-358 | when all handles and the receiver are gone the next turn has killed the tree, and desertion is counted once |
| PumpProofs.AbandonKillsAtMostOnce | src/process/engine.rs:455-459 | desertion causes at most one kill in a whole run |
| PumpProofs.TailReconstructed | src/process/engine.rs:113-129 | splitting the captured stderr gives back the lines it was joined from, exactly unless they were a single empty line |
| PumpProgress.KillRequestsTakeEffect | src/process/engine.rs:178-233 | a hard kill has killed the tree when it is handled; a graceful one, whether or not the signal could be sent, has done so when its grace is over, as long as the process is watched; in the first loop either marks the process as dying |
| PumpProgress.FinishedOrKilledIsDying | src/process/engine.rs:352-399 | while output is still read, a process that finished, was killed, was abandoned or hit its deadline counts as dying |
| PumpProgress.FlushIsPatient | src/process/engine.rs:507-542 | every event sent gives the receiver five seconds more: the flush ends earlier only when all is sent or the receiver is gone |
| PumpProgress.OnlyAStallDrops | src/process/engine.rs:371-405 | output is dropped only after one event has been pending for the full five seconds of its deadline |
| PumpProgress.DeadlineWasEarned | src/process/engine.rs:383-431 | a stall deadline lies five seconds after a moment at which the event now pending already was |
| Handle.Wait | src/process/handle.rs:42-52 | a wait begun at any point of any run on any clone returns what the run as a whole has to say: its one outcome, or that the pump was dropped |
| Handle.SendCtrl | src/process/handle.rs:77-99 | a message that the pump's run takes is answered with what its handler sends; an unanswered kill succeeds when the outcome was announced and is `AlreadyExited` otherwise, which happens only when the pump was dropped; an unanswered write fails |
| Handle.HandledKillsTakeEffect | src/process/engine.rs:185-218 | a reply to a kill comes from a pump that has not returned; a hard kill has killed the tree by then, also where the reply is an error, and a graceful one at the latest when its grace is over |
| Handle.Kill | src/process/handle.rs:54-64 | for both kinds of kill, success means that the run's outcome is an exit; a child whose end was announced is never reported as already exited |
| Handle.EveryWaitAgrees | src/process/handle.rs:42-52 | once there is an outcome, all later observations of the run give the same answer, and a returned pump has one |
| Handle.SlotIsFinal | src/process/engine.rs:483-487 | the slot is written at most once, keeps its value, and is filled before the pump returns |
| StartToken.BootBoundStartToken | src/process/pid_file.rs:676-683 | the hash loop computes the token of the boot id followed by the little-endian ticks |
| StartToken.OneByteSeparates | src/process/pid_file.rs:676-683 | inputs of equal length that differ in exactly one byte never share a token |
| StartToken.TimesPrimeInjective | src/process/pid_file.rs:680 | multiplying by the prime modulo 2^64 loses nothing |
| StartToken.FourBytesSeparate | src/process/pid_file.rs:678-681 | four rounds from one state tell any two runs of four bytes apart |
| StartToken.TicksSeparate | src/process/pid_file.rs:675-683 | under one boot id, ticks that agree above their low four bytes, and so any two below 2^32, never collide |
| Processes.IdentityIsUnique | src/process/pid_file.rs:649-653 | under one pid and boot, two incarnations with the same identity and ticks below 2^32 are the same |
| Reaper.ProcessIdentity | src/process/pid_file.rs:630-654 | an identity that is returned belongs to one process that ran during the query; no identity means that everyone seen under the pid before is dead |
| Reaper.Sandwich | src/process/pid_file.rs:631-644 | equal ticks before and after pin the executable read in between to the same incarnation |
| Reaper.IdentityForReap | src/process/pid_file.rs:550-570 | retrying while denied keeps the promise of a single query over the whole span |
| Reaper.KillRecordedProcess | src/process/pid_file.rs:832-853 | with process handles, every signal delivered hits a process of the recorded identity, whatever dies or is reused between the steps; success means that one was delivered or that somebody had left the pid meanwhile |
| Reaper.HandleIsWitness | src/process/pid_file.rs:855-892 | a handle opened before the validation that still reaches its process afterwards reaches the validated one |
| Reaper.HitsTheRecordedProcess | src/process/pid_file.rs:946-949 | where ticks agree above their low four bytes, as all below 2^32 do, the process hit is the very one that was recorded |
| Reaper.KillRevalidatedByPid | src/process/pid_file.rs:903-922 | one signal on success and at most one otherwise: that of a fallback run with its reads and its `kill` at some moments of the call, to the validated process if that still holds the pid |
| Reaper.FallbackWindow | src/process/pid_file.rs:213-216 | there is a run of the fallback in which the target is validated and another process, of another identity, gets the signal |
| Reaper.ReapRecordWithKill | src/process/pid_file.rs:403-461 | success for an owned record means that everyone who carried its identity is dead, also when the kill call failed; `Killed`, or any signal, means that the identity was seen running before; signals hit only that identity; a descendant fails exactly when it was still seen at the last look, and then it outlived the signals sent to it |
| Reaper.ConfirmDeath | src/process/pid_file.rs:429-460 | up to a hundred looks, undecided ones but for the last; the last one decides, and where it leaves the matter open after the hundredth the error is that of the kill, else that of the look, else a timeout |
| Reaper.StrangerMeansDead | src/process/pid_file.rs:434-436 | seeing another identity under the pid proves the recorded process dead |
| Reaper.CaptureDescendants | src/process/pid_file.rs:480-495 | two listings; what is captured is exactly what the reaper was told right after the deciding listing, the second one for every pid that it has below the root and the first one for the others; each captured identity was seen running after that listing; no pid twice |
| Reaper.ReapRecord | src/process/pid_file.rs:356-401 | success means the recorded root is dead; every signal comes after the capture and goes to the recorded pid or a captured one, and with process handles it hits the identity recorded or captured for that pid |
| Reaper.StrangersAreNotJustified | src/process/pid_file.rs:218-220 | a signal to a pid that was not captured, or to a process that took a captured pid without having the identity captured for it, is none that a reap may send |
| Reaper.ReapDescendants | src/process/pid_file.rs:370-400 | every signal hits a captured descendant; it fails exactly when some captured descendant was still seen at the last look about it, and each such one outlived the signals sent to it |
| Descendants.DescendantPids | src/process/pid_file.rs:523-548 | exactly the pids reachable from the root by one or more parent links, also when the links form cycles |
| Descendants.GroupByParent | src/process/pid_file.rs:527-532 | the child lists invert the parent relation |
| Descendants.MergeDescendantCaptures | src/process/pid_file.rs:503-521 | one entry for each pid, in ascending order, with the second snapshot authoritative wherever it lists the pid |
| RecordCodec.HexEncode | src/process/pid_file.rs:1093-1101 | the loop produces the lower-case hex text of the bytes |
| RecordCodec.HexInverses | src/process/pid_file.rs:1093-1124 | decoding undoes encoding, and succeeds exactly on lower-case hex of even length, where encoding undoes it (cf. section 8 of RFC 4648) |
| RecordCodec.ParseEpochRecord | src/process/pid_file.rs:1037-1075 | the line loop, giving up at the first bad line, computes the table of fields and the record they denote |
| RecordCodec.ParseAccepts | src/process/pid_file.rs:1037-1091 | a text is read as a record exactly when its lines assign the six expected fields, each once, with version 2, numbers in range, and the lower-case hex of UTF-8 names that denote the record |
| RecordCodec.CrLfRoundTrip | src/process/pid_file.rs:1039 | a record whose lines end in carriage return and line feed reads back as well |
| RecordCodec.RoundTrip | src/process/pid_file.rs:1023-1075 | a record can be written exactly when its path is UTF-8, and then reads back as itself, whatever its names contain |
| RecordCodec.ParsePermutes | src/process/pid_file.rs:1038-1046 | the order of the lines never matters, for errors either |
| RecordCodec.EpochNameRoundTrip | src/process/pid_file.rs:1126-1138 | a generated file name reads back as its epoch |
| RecordCodec.AcceptedName | src/process/pid_file.rs:1126-1138 | an accepted name is the generated one exactly when its number has no sign and no leading zero |
| RecordCodec.PaddedNameAccepted | src/process/pid_file.rs:1135-1137 | two different names are accepted for one epoch |
| Decimal.FormatsBack | src/process/pid_file.rs:1084-1091 | a parsed number formats to the same text exactly when the text was canonical |
| Decimal.ParseDigits | src/process/pid_file.rs:1028-1033 | a formatted number within range parses to itself |
| PidFiles.PidFile.Read | src/process/pid_file.rs:183-206 | absent is no record, anything irregular or unreadable an error, and otherwise the record in the text |
| PidFiles.PidFile.RemoveIfMatches | src/process/pid_file.rs:1012-1021 | only the expected record is removed, and an error leaves everything |
| PidFiles.PidFile.Write | src/process/pid_file.rs:961-1010 | an existing file is never replaced, and what appears is the given record |
| PidFiles.ReapEpochPidFile | src/process/pid_file.rs:224-263 | the file disappears only when whoever its record names is dead and the record belongs where it lies; an error leaves it; nobody is signalled on the word of a misplaced record, and on that of any other only the recorded process and descendants of it with the identities captured before |
| PidFiles.NormalizeEpochSpec | src/process/pid_file.rs:265-294 | success means both names carry the epoch and lie in one directory, and yields the generated names there |
| PidFiles.PrepareEpoch | src/process/pid_file.rs:95-113 | a leftover is replaced only when it fits the specification and is dead; an error leaves it; signals go to the recorded process and to descendants of it with the identities captured before only |
| PidFiles.PidFileGuard.Write | src/process/pid_file.rs:122-152 | what is recorded is the identity of a process that ran under the pid meanwhile and has the expected executable; errors never overwrite |
| PidFiles.PidFileGuard.Cleanup | src/process/pid_file.rs:157-179 | only the guard's own record is removed |
| PidFiles.WaitForProcessIdentity | src/process/pid_file.rs:586-605 | an identity that is returned was seen during the wait |
| PidFiles.RecordThenReap | src/process/pid_file.rs:127-150 | a guard records a child, time passes, and the file is reaped: when both succeed, a process of the recorded identity ran meanwhile, it and all others of that identity are dead, and the file is gone; a failed reap leaves the record |
| Publication.Directory.AtomicMoveNew | src/io/atomic_fs.rs:311-321 | success renames, `AlreadyExists` changes nothing, an existing target always stays, and any other error may leave both names |
| Publication.PublisherMoves | src/process/pid_file.rs:987 | the two steps of a publisher at its link and unlink are exactly the two calls of the move, failures and results included |
| Publication.RunInv | src/process/pid_file.rs:961-1010 | names, inodes, outcomes and mutual separation of all publishers are kept by every interleaving |
| Publication.AtMostOneWinner | src/process/pid_file.rs:984-988 | at most one publisher wins, and none over an existing record |
| Publication.TargetNeverChanges | src/process/pid_file.rs:961-1010 | once there, the record keeps its inode and content |
| Publication.NothingIsOverwritten | src/process/pid_file.rs:971-978 | no name that was there ever comes to mean another file, and no file that was there changes its content |
| Publication.ExistingRecordStopsEveryone | src/process/pid_file.rs:964-970 | over an existing record no publisher touches the directory, and whoever finishes fails |
| Publication.ReaderSeesWholeRecord | src/process/pid_file.rs:979-988 | at every step a reader finds nothing or one complete, synced record: the old one or the winner's |
| Publication.WholeAfterPowerLoss | src/process/pid_file.rs:981-988 | also after a power loss whoever finds the name parses the winner's record from it |
| Publication.OutcomeTells | src/process/pid_file.rs:1005-1009 | success means the own text is published, `AlreadyExists` that nothing was, and without a failed unlink no staging name is left |
| Publication.RaceHasOneWinner | src/process/pid_file.rs:961-1010 | a finished race without failures over a free name has exactly one success, and `AlreadyExists` for everyone else, exactly when some staging name to be drawn is free; otherwise everyone gets `AlreadyExists` and nothing is published |
| Publication.FreshCounterIsEnough | src/process/pid_file.rs:962-972 | a staging name is free as soon as some publisher's process has no stale file at or above its counter |
| Publication.StaleFileStopsThePublisher | src/process/pid_file.rs:971-978 | a single publisher whose first staging name is taken by a stale file fails with `AlreadyExists` over a free name, publishes nothing and removes the file |
| Backoff.UnjitteredDelay | src/process/supervisor.rs:95-102 | without jitter the delay is the capped exponential, saturation notwithstanding |
| Backoff.BaseMonotone | src/process/supervisor.rs:95-99 | later attempts never wait less, and never more than the maximum |
| Backoff.JitterWithinQuarter | src/process/supervisor.rs:103-107 | jitter stays within a quarter of the base for all entropy exactly for bases from one nanosecond up to the point of overflow |
| Storm.NewPolicy | src/process/supervisor.rs:42-49 | a policy allows at least one failure and a window of a millisecond, and keeps what is above |
| Storm.StormGuard.Record | src/process/supervisor.rs:431-442 | pushes the exit, pops what has left the window, and gives up when the maximum is reached |
| Storm.DequeRefinesHistory | src/process/supervisor.rs:431-438 | one more exit keeps the deque equal to the part of the whole history inside the closed window |
| Storm.SurvivedExitsAreBounded | src/process/supervisor.rs:439-442 | a history survived throughout has at most (max_failures − 1) exits for each window begun |
| SupervisorTask.Supervisor.Run | src/process/supervisor.rs:343-489 | the loop in its own control flow, beside concurrent callers, carries out every schedule exactly as described, and ends in a state that satisfies the joint invariant |
| SupervisorTask.Supervisor.constructor | src/process/supervisor.rs:297-326 | the loop begins with one child, announced and in the slot, in a state that satisfies the joint invariant |
| SupervisorTask.Supervisor.Round | src/process/supervisor.rs:343-489 | one round of the outer loop, in its own control flow, follows the description for as long as the schedule lasts; it ends where a round begins, or has returned |
| SupervisorTask.Supervisor.Watch | src/process/supervisor.rs:355-413 | the select loop follows the description under every interleaving and ends only with the child's events |
| SupervisorTask.Supervisor.CheckReady | src/process/supervisor.rs:367-397 | the three accesses behind a readiness arm, others in between, lead back to the select |
| SupervisorTask.Supervisor.Leave | src/process/supervisor.rs:415-442 | the exit path takes the handle, withdraws the offer, reports the exit and stops, returns or counts it, in that order; the loop goes on only to the budget |
| SupervisorTask.Supervisor.Respawn | src/process/supervisor.rs:448-489 | budget, announcement, sleep, spawn, slot, offer and start follow each other with the token looked at in between; the loop goes on only to a new round |
| SupervisorTask.Supervisor.Await | src/process/supervisor.rs:356-413 | whatever others do while the loop waits leaves its variables and its place alone, and it continues only with what its guards admit |
| SupervisorTask.Supervisor.AckMove | src/process/supervisor.rs:192-213 | an acknowledgement checks the slot, exchanges the offer, sends, and puts the offer back when nobody receives |
| SupervisorTask.Supervisor.StopMove | src/process/supervisor.rs:217-230 | stopping cancels, takes the handle, stops it and waits for the loop |
| SupervisorProofs.EventsFollowTheGrammar | src/process/supervisor.rs:343-489 | every log is accepted by the event grammar, each event in its place, and a loop that has returned holds no child and has reported one exit for each child spawned |
| SupervisorGrammar.ReadyFollows | src/process/supervisor.rs:374-396 | `Ready` comes directly after the start of the same child, so at most once and before its exit |
| SupervisorGrammar.AcceptedMeansInPlace | src/process/supervisor.rs:320-489 | the grammar accepts a log exactly when each event is in its place: a start first of all or after a restart, `Ready` after the start, an exit after its child's start or readiness or, unannounced, after a restart, each for the child after those that have exited; restarts and giving up only after an announced child's exit or a restart |
| SupervisorGrammar.EndsAreFinal | src/process/supervisor.rs:423-446 | nothing follows `GaveUp` or `Stopped`, and an exit without its own start is followed by `Stopped` and the end |
| SupervisorGrammar.ExitsCount | src/process/supervisor.rs:421 | the children let go by an accepted log are as many as its exits |
| SupervisorProofs.EveryHandleLeavesOnce | src/process/supervisor.rs:357-366 | each child's handle leaves the slot exactly once, in order of the spawns, by `stop`, by the cancel branch with a kill task that is awaited, or on the exit path of a child that had ended; what `stop` holds is what it took |
| SupervisorProofs.StopWaits | src/process/supervisor.rs:217-230 | when `stop` comes back the loop has returned and every handle has left the slot |
| SupervisorProofs.CancellationSettles | src/process/supervisor.rs:459-488 | after cancellation at most one more spawn completes or one more restart is announced, not both |
| SupervisorProofs.LateChildIsNotAnnounced | src/process/supervisor.rs:474-483 | a child whose spawn completed after cancellation is never announced as started |
| SupervisorProofs.EndingIsExplained | src/process/supervisor.rs:423-455 | a loop that has returned says why: `Stopped` after cancellation, `GaveUp` with the budget spent or too many exits in the window, a clean exit, or any exit under a policy that never restarts; only abnormal exits under a restarting policy lead to restarts or giving up |
| SupervisorProofs.RestartsKeepTheBudget | src/process/supervisor.rs:448-458 | restarts are numbered 1, 2, 3, … anew after each `Ready`, never beyond the budget, with the delays of the backoff; in all at most max_restarts for each `Ready` and once more |
| SupervisorLimits.DelaysGrow | src/process/supervisor.rs:457-458 | without jitter the delays between two `Ready`s are the capped exponentials of their attempts and never get shorter |
| SupervisorProofs.StormsAreBounded | src/process/supervisor.rs:431-442 | a run that goes on has survived at most (max_failures − 1) abnormal exits for each window begun, however many `Ready`s renewed the budget, and reported at most one exit more |
| SupervisorProofs.GuardHoldsTheWindow | src/process/supervisor.rs:431-438 | in every run the deque holds exactly the abnormal exits of the run that lay in the closed window when the last of them came |
| SupervisorProofs.GuardDecidesOnTheWindow | src/process/supervisor.rs:431-442 | in every run the loop continues past an abnormal exit exactly when fewer than the maximum of all exits so far lie in its window, and gives up otherwise |
| SupervisorLimits.StormDecides | src/process/supervisor.rs:431-442 | counting an exit keeps the guard faithful to the history, and decides on the exits in the window |
| SupervisorProofs.OnlyTheLatestIsOffered | src/process/supervisor.rs:418-419 | while the loop runs only the latest child's pid is on offer, and nothing is from one child's exit to the next one's start |
| SupervisorProofs.AcknowledgedOnce | src/process/supervisor.rs:192-213 | however calls race with each other, with exits and with respawns, at most one for each child answers true |
| SupervisorProofs.ReadyWasAcknowledged | src/process/supervisor.rs:379-396 | in acknowledged mode `Ready` directly follows the child's own start and some call with that child's pid answered true; stale pids never make a later child ready |
| SupervisorProofs.AcknowledgementIsNotLost | src/process/supervisor.rs:192-213 | while a child's readiness is awaited in acknowledged mode, its pid is on offer, held by one call, queued, or being looked at |
| SupervisorProofs.ReadinessIsPursued | src/process/supervisor.rs:367-398 | while a child is watched, not ended and not cancelled, its handle is in the slot and its readiness is awaited or was reported; once cancellation is noticed it is not awaited any longer |
| SupervisorProofs.EndedChildIsNeverReady | src/process/supervisor.rs:193-198 | once a child has announced its end undecided, it is never reported ready, and no call begun later about it answers true |
| LineReader.BufReader.FillBuf | src/io/mod.rs:21-26 | an empty window takes the next refill, and the line to be read is unchanged unless the refill failed |
| LineReader.BufReader.ReadLine | src/io/mod.rs:16-51 | the loop appends exactly the next line, returns its length or the error, and leaves the reader behind it |
| LineReader.BufReader.AppendWindow | src/io/mod.rs:18-50 | one pass either ends the call with exactly what it should append and answer, or leaves exactly the rest to do, on a smaller reader |
| LineReader.CallConserves | src/io/mod.rs:16-51 | one call hands over a prefix of the stream, also when it fails, and counts what it appended |
| LineReader.LineShape | src/io/mod.rs:27-44 | a line feed occurs only as the last byte, a result before the end of the stream ends in a line feed or carriage return, and zero is returned only at its end |
| LineReader.CallsConserveStream | src/io/mod.rs:16-51 | repeated calls deliver exactly the stream, under every chunking and across errors |
| LineReader.CallsAreLines | src/io/mod.rs:16-51 | where no carriage return precedes a line feed, the calls are the stream's own lines |
| LineReader.ChunkDependent | src/io/mod.rs:33-38 | any other stream has two chunkings with different lines |
| LineReader.ChunkIndependence | src/io/mod.rs:16-51 | the lines are independent of the chunking exactly when no carriage return precedes a line feed |

## Left out

- The stdin writer: whether a write succeeded, like the result of `kill_all`, is given to `Handle.dfy` from outside; a `WriteStdin` changes nothing else in the pump.
- `run_capture`, `Command` builders, output decoding, containment detection, tracing and error texts: adapters and strings.
- Windows and other non-Linux paths of identity, kill and move: foreign calls.
- The legacy pid file: a number with a plain check before removal.
- Reading and splitting `/proc` files: the kernel model delivers ticks and executable, or an error.
- Reaper.KillRevalidatedByPid: by pid the signal may reach a stranger, as the source documents; only the validation before it is promised.
- Reaper.ReapRecordWithKill: for descendants an unreadable identity counts as death, so `Killed` does not prove a descendant dead.
- PidFiles.PidFile.RemoveIfMatches: check and removal are one step here, as for a single user of the file; they are not atomic.
- PidFiles.PidFile.Write: an error does not mean that nothing was published, because the unlink after a successful link can fail.
- Descendants that reparent before the first capture, and a second reap of descendants that could not be confirmed dead: not promised by the source.
- The order in which ready select arms are polled: any ready arm may go first in the model, so nothing that depends on the bias is stated.
- The supervisor's process-event hook, the exact moments of its timers, and what `stop_process` answers: forwarding, waiting and an error for the caller.
- Progress of the supervisor and of the pump beyond its own timers: that a killed process ends, a receiver drains or a spawn returns is not promised by this code.
- Overflow of the attempt counter for a budget of 2^32 − 1 restarts, and the source of jitter entropy: entropy is an argument.
- `src/core`, `src/os`, `src/network`, `src/dirs.rs` and `src/runtime`: platform plumbing.
