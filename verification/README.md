# Models of agentctl, the backup verifier and the capture monitor

This project models the parts of the repository that combine an incremental or
concurrent mechanism with a simple meaning, and proves that each mechanism keeps
its meaning. Every file is one module.

| file | what it models |
|---|---|
| `Admission.dfy` | launches, hold release and retries under the admission lock, over a queue whose acknowledgements may be lost |
| `KeyedLaunch.dfy` | launches under an idempotency key, with deaths, lost acknowledgements, queue resets and damaged inputs |
| `JobRun.dfy` | one job's attempts: the wrapper, cancellers, startup retries, the cancel marker and the allocation lock |
| `Coverage.dfy` | full verification of an archive against a snapshot: the walk, both archive readings, hard links |
| `Sampler.dfy` | the bounded rotating content sample and its retained cursor |
| `Lifecycle.dfy` | acquisition, receipts, the latest marker, the pending queue and the prune plan |
| `EventReaders.dfy` | the backward tail reader and the forward follow reader of the event log |
| `PressureReplay.dfy` | the byte-cursor projection of pressure events across growth, rotation and interruption |
| `PressureController.dfy` | the pressure controller's passes |
| `Compaction.dfy` | the migration that replaces embedded outcomes by references |
| `CaptureWriter.dfy` | the ordered capture queue |
| `Framing.dfy` | record framing and unescaping of the metadata stream |
| `Checkout.dfy` | the obstacle check before a checkout is released |
| `Lines.dfy` | splitting a stream into lines, shared by the readers, the replay and the compaction |
| `Wrappers.dfy` | the optional value that every model shares |

## How the concurrent parts are modelled

Each protocol is a state machine whose actions are the sections that run under a
lock, split wherever a process can die, an acknowledgement can be lost or another
party can step in between. An action that is not enabled leaves the state as it
is, so a theorem about every sequence of actions is a theorem about every
interleaving. Beside the machine stand the methods in the code's own form
(`Admission.Launcher`, `KeyedLaunch.Launcher`, `JobRun.Host`,
`JobRun.Allocation`, `Coverage.Inventory`, `CaptureWriter.EnvelopeWriter`,
`PressureController.Controller`). A method that meets other parties between its
steps takes what they do as a parameter and returns, as a ghost, the run of the
machine that it took.

The assumptions about the world are these.

- The queue runs at most one wrapper for a task, starts only tasks that are
  queued, and loses a row only by removal or a reset. A request to it may fail
  with or without having been carried out. This is the in-memory queue of the
  test suite, with failures added (`pkgs/agentctl/conftest.py`, lines 42 to 309).
- The service manager keeps an accepted unit under its name until it is stopped,
  also when its processes have ended, and refuses a second submission under a
  name in use.
- Digests are injective, JSON decoding inverts encoding, and an encoded value
  holds no line break.
- Where the inventory has a regular file, the two readings of an archive report
  what restoring it gives back and agree on link targets; nothing is assumed of
  other records. A directory names each entry once. These assumptions are met:
  `Coverage.LinkedArchiveVerifies` is an archive with a directory, a file and a
  hard link.
- A new snapshot has a new UUID and a later creation identity than every one
  before it.

## Where the code does less than its design

Each of these is a theorem that gives the exact condition, beside a run or an
input in which it happens.

- A cancel that arrives before a wrapper has allocated its attempt misses it if
  and only if the attempt before left no outcome
  (`JobRun.EscapeIffUnfinished`). The canceller then marks the old attempt, and
  the new one drops that marker.
  `JobRun.EscapeHappens` is a run in which it does.
- For the same reason an undisturbed cancel of a queued job removes it if and
  only if its latest attempt left an outcome (`JobRun.QueuedCancelIff`).
  Otherwise it is answered as unresolved because a runner had started, the row
  stays, and the coming attempt may still start (`JobRun.QueuedEscapeHappens`).
- A cancel whose section begins when the wrapper is exiting or gone leaves a marker
  that makes the next attempt give up, with no cancel of its own, if and only if
  the latest attempt has its outcome (`JobRun.LateCancelIff`,
  `JobRun.LateCancelHappens`). The canceller found the task running before it
  waited for the lock, and does not look again once it has it.
- An attempt at its startup section may take its outcome from another attempt's
  unit if and only if such a unit holds the name and no marker ends the startup
  (`JobRun.BorrowsIffNameTaken`). When a wrapper dies, its unit ends without
  success and the next wrapper does not stop it, the name is still in use: the
  next submission is refused and its outcome is the earlier attempt's
  (`JobRun.BorrowedOutcomeHappens`). The search for orphans lists only units that
  are active, activating or deactivating.
- At one unchanging reading the pressure controller comes to rest unless the
  60-second average asks to close while the 10-second average allows to reopen
  and a group can be closed or reopened; then every pass changes a group
  (`PressureController.SettlesExactly`, `PressureController.RestlessReading`).
- The controller ever reopens a paused group if and only if the group is managed
  and its last effective record is an own close
  (`PressureController.ReopensIffOwn`). A pause that was carried out and answered
  by an error leaves no such record, so the group stays paused
  (`PressureController.LostAnswer`, `PressureController.LostPauseHappens`).
- Held tasks drain if and only if none of them has a partner that is stashed
  without a hold (`Admission.DrainsIffNothingIsStuck`). Only a retry that dies or
  loses its answer between the stashed restart and the write of its hold leaves
  such a task: without one, every run drains (`Admission.CarefulRunsDrain`); after
  one, a task launched later may never drain (`Admission.StuckHappens`), and until
  someone takes the stuck task out of the queue, whatever else happens, no task
  that excludes it is admitted anew (`Admission.StuckShutsOut`).
- A pressure event whose append failed is projected although the log does not
  hold it; `PressureReplay.UnloggedEvent` says when the projection still agrees
  with the log, and `PressureReplay.UnloggedEventHappens` that it need not.
- While no call is on its way to the queue, a keyed launch can be returned by some
  later call if and only if its retained input is readable and the queue holds
  its task, its task number is recorded or an attempt was made
  (`KeyedLaunch.ReturnsIffEvidence`); the last two alone make every lookup find it
  (`KeyedLaunch.AlwaysFoundIffDurable`). So a launch that the queue accepted, whose
  acknowledgement was lost and whose task the queue then lost, is never returned
  (`KeyedLaunch.LostAcknowledgementHappens`): at most once is bought with that.

## Model

| member | source | states |
|---|---|---|
| Admission.PartnersAreMutual | pkgs/agentctl/agentctl/pools.py:81-91 | exclusion is symmetric whichever pool declares it |
| Admission.PartnersAreDeclared | pkgs/agentctl/agentctl/pools.py:81-91 | the partners of a pool are exactly the other pools that it declares exclusive or that declare it so |
| Admission.HoldIffExcluded | pkgs/agentctl/agentctl/launch.py:445-463 | a launch is held exactly when an unfinished task is in a pool that a declaration of either side excludes, and waits for all such tasks |
| Admission.HoldIsOwn | pkgs/agentctl/agentctl/launch.py:465-478 | a hold counts for a stashed task alone, and only one that its own launch input carries for its own pool |
| Admission.LaunchEnds | pkgs/agentctl/agentctl/launch.py:377-410 | an excluded launcher is refused before anything is written; any other launch writes its input with its hold and adds the task, stashed exactly if held, unless the request was not carried out, and an unknown group takes the input away |
| Admission.RetryEnds | pkgs/agentctl/agentctl/launch.py:1468-1521 | a refused retry changes nothing; any other restarts the task, stashed exactly if held, and writes the hold once the restart is acknowledged |
| Admission.RequestEnds | pkgs/agentctl/agentctl/launch.py:511-541 | a blocked task waits; a request that was not carried out ends the pass with nothing changed, a lost answer ends it with the task queued, and an acknowledged one also takes the hold that the input still carries |
| Admission.ExclusionAlways | pkgs/agentctl/agentctl/launch.py:377-410 | over every run of launches, releases, retries and queue steps, with lost acknowledgements and deaths anywhere, no two queued or running tasks are in different pools of which one declares itself exclusive with the other |
| Admission.UnblockedIsAdmissible | pkgs/agentctl/agentctl/pools.py:94-116 | a held task that no smaller or unheld unfinished partner blocks may be admitted now although the snapshot is old, and excludes nothing released before it in the pass |
| Admission.ReleaseIsOrdered | pkgs/agentctl/agentctl/launch.py:518-541 | when a held task is released, every unfinished partner has a greater number, is held and is not admitted |
| Admission.PassReleasesNoTwo | pkgs/agentctl/agentctl/launch.py:516-541 | in every run, one pass never releases two tasks that exclude each other |
| Admission.PassReleasesLeast | pkgs/agentctl/agentctl/launch.py:504-546 | if every unfinished partner of the least held task is held, a pass releases that task, holds no new one and leaves the stashes without a hold as they are |
| Admission.HoldsDrain | pkgs/agentctl/agentctl/launch.py:504-546 | undisturbed: when every admitted task finishes before each pass and every request is acknowledged, as many rounds as there are held tasks release them all, unless one has a stuck partner |
| Admission.HoldsDrainDespiteLoss | pkgs/agentctl/agentctl/launch.py:504-546 | after every run, with no stuck partner and nothing new arriving: whatever queue steps, failed or lost requests, deaths and further passes each round holds, all holds are released once as many rounds have got on (an admitted task is so no more, or none is and the pass's first request is carried out) as twice the held tasks and the admitted ones |
| Admission.DrainsIffNothingIsStuck | pkgs/agentctl/agentctl/launch.py:511-541 | after every run that leaves the lock free, held tasks drain if and only if none of them has a partner that is stashed without a hold |
| Admission.CarefulRunsDrain | pkgs/agentctl/agentctl/launch.py:1501-1521 | every run that leaves the lock free leaves held tasks that drain, whatever else is lost or dies, unless a retry goes between its stashed restart and the write of its hold |
| Admission.StuckHappens | pkgs/agentctl/agentctl/launch.py:1501-1521 | a run in which a retry dies between the stashed restart and the write of its hold, and a task launched after it never drains |
| Admission.StuckShutsOut | pkgs/agentctl/agentctl/launch.py:377-548 | after every run that leaves the lock free and in every continuation, launches, retries and losses included, that does not take a stuck task out of the queue: it stays stuck, and no task that excludes it is admitted anew |
| Admission.Launcher.Enqueue | pkgs/agentctl/agentctl/launch.py:377-410 | the launch section makes exactly the machine's steps; the answer follows from the declarations, the group and the queue's reply; the task is queued without a hold exactly when no unfinished task is in an excluded pool and otherwise waits for all of them, and an unknown group leaves no launch input |
| Admission.Launcher.ReleaseHolds | pkgs/agentctl/agentctl/launch.py:504-548 | the release loop makes exactly the machine's turns between what others do, until a request fails or nothing is left; every held task is released or waits, the released are pairwise compatible, and an error reports nothing |
| Admission.Launcher.Retry | pkgs/agentctl/agentctl/launch.py:1468-1521 | the retry section makes exactly the machine's steps; it is refused, and nothing changes, exactly when the task is not terminal, its launcher is excluded, or it must be held and has no input |
| Admission.Launcher.ConsumeHold | pkgs/agentctl/agentctl/launch.py:481-501 | a hold is cleared only if it is still the one that was read |
| KeyedLaunch.AtMostOnce | pkgs/agentctl/agentctl/launch.py:602-623 | over every sequence of calls, deaths, lost acknowledgements, resets and rewrites, the queue accepts a key's launch at most once, and each returned call asked for exactly the request submitted before it |
| KeyedLaunch.FirstCallSubmits | pkgs/agentctl/agentctl/launch.py:377-418 | the first call for a key, undisturbed, submits exactly once, records the task and returns |
| KeyedLaunch.FirstCallFails | pkgs/agentctl/agentctl/launch.py:377-403 | an undisturbed first call that the checks refuse leaves nothing; one whose request was not carried out leaves the input and is uncertain |
| KeyedLaunch.FirstCallIsAccepted | pkgs/agentctl/agentctl/launch.py:377-418 | an acknowledged first call records the task's number, and fails only if the task cannot be read |
| KeyedLaunch.FirstCallIsLost | pkgs/agentctl/agentctl/launch.py:399-400 | a lost acknowledgement leaves the task, and the input without its number; the call is uncertain |
| KeyedLaunch.DownAnswers | pkgs/agentctl/agentctl/launch.py:559-599 | while the queue cannot be read, a call for a retained input fails unless it is refused, and nothing changes |
| KeyedLaunch.UnknownGroupUnlinks | pkgs/agentctl/agentctl/launch.py:395-400 | an unknown group withdraws the retained input exactly when the launch waits for no other task; the call fails and no other key is touched |
| KeyedLaunch.UnknownGroupLaunchesAgain | pkgs/agentctl/agentctl/launch.py:395-400 | the next call for the key, undisturbed and acknowledged, is accepted and returned exactly when the input was withdrawn, and otherwise uncertain or refused |
| KeyedLaunch.DifferentRequestIsRefused | pkgs/agentctl/agentctl/launch.py:676-689 | a request with another digest under a submitted key is refused |
| KeyedLaunch.RetainedInputCloses | pkgs/agentctl/agentctl/launch.py:559-599 | once a launch input is retained and no call is waiting for the queue, nothing is ever submitted for the key again |
| KeyedLaunch.ReturnsIffEvidence | pkgs/agentctl/agentctl/launch.py:587-599 | with no call between submission and record, some continuation returns the job if and only if the input is readable and the queue holds its task, its number is recorded or an attempt was made |
| KeyedLaunch.AlwaysFoundIffDurable | pkgs/agentctl/agentctl/launch.py:587-596 | every later lookup of the same request finds the job, short of damage to the input, if and only if the number is recorded or an attempt was made |
| KeyedLaunch.EvidenceAppears | pkgs/agentctl/agentctl/launch.py:587-596 | an uncertain launch that the queue accepted becomes durable when its wrapper begins, and when a retry or a release writes its number |
| KeyedLaunch.QueueForgets | pkgs/agentctl/agentctl/launch.py:584-599 | without durable evidence the job is found just while its task is in the queue |
| KeyedLaunch.OneCallAtATime | pkgs/agentctl/agentctl/launch.py:602-623 | a second call for a key waits, and only a call that has not written its input is refused by the launch checks |
| KeyedLaunch.DamageRefuses | pkgs/agentctl/agentctl/launch.py:571-585 | a damaged input refuses every later call |
| KeyedLaunch.LostAcknowledgementHappens | pkgs/agentctl/agentctl/launch.py:592-599 | a run in which the queue accepted the launch and no continuation ever returns it |
| KeyedLaunch.LostLaunchStaysUncertain | pkgs/agentctl/agentctl/launch.py:592-599 | one case of it: a launch that the queue never accepted is answered by uncertain or refused for ever |
| KeyedLaunch.AcknowledgedLaunchIsFound | pkgs/agentctl/agentctl/launch.py:587-596 | once the task number is recorded, every later lookup of the same request returns the job, whatever becomes of the queue, unless the input is damaged |
| KeyedLaunch.InsideAgrees | pkgs/agentctl/agentctl/launch.py:395-405 | each step keeps the retained input, the queued tasks and the attempts in agreement with what was submitted, the unlink after an unknown group included |
| KeyedLaunch.Launcher.EnqueueRequest | pkgs/agentctl/agentctl/launch.py:602-623 | one keyed call on the object's own fields makes exactly the machine's steps of a call, with others stepping in between, and ends with its answer; a returned call names the submitted request, and after an unknown group the input is there exactly when the launch waits |
| JobRun.StepKeepsInv | pkgs/agentctl/agentctl/launch.py:1246-1286 | every step keeps the lock discipline: a canceller that holds the lock beside a busy wrapper addresses that wrapper's attempt |
| JobRun.CancelIsFinal | pkgs/agentctl/agentctl/launch.py:1266-1282 | in every run, once a canceller has written its marker, the attempt it names is never submitted again, and an unguarded section ends with the stop |
| JobRun.AddressesLive | pkgs/agentctl/agentctl/launch.py:1253-1260 | the canceller addresses the invocation under way exactly when no earlier attempt is unfinished before allocation and the outcome is not yet published |
| JobRun.CancelCoversLive | pkgs/agentctl/agentctl/launch.py:1247-1285 | if the earlier attempts have published outcomes, the invocation under way when the section begins never starts after the marker, in every interleaving, and its stop follows |
| JobRun.EscapeIffUnfinished | pkgs/agentctl/agentctl/artifacts.py:84-102 | a wrapper that has not allocated can still start after a completed cancel if and only if the attempt before it left no outcome |
| JobRun.EscapeHappens | pkgs/agentctl/agentctl/artifacts.py:84-102 | a run in which a killed first attempt and a retry let the second attempt escape a cancel |
| JobRun.LateCancelIff | pkgs/agentctl/agentctl/launch.py:1246-1266 | at every reachable state with the wrapper exiting or gone, some continuation of the cancel in which nobody cancels the next attempt has that attempt give up if and only if the latest attempt has its outcome |
| JobRun.LateCancelHitsRetry | pkgs/agentctl/agentctl/launch.py:1253-1266 | the run in full: retry, start, allocation, give up |
| JobRun.LateCancelHappens | pkgs/agentctl/agentctl/launch.py:1246-1266 | a reachable state with the wrapper gone at which it does |
| JobRun.NumbersGrowAndMarkersAreExact | pkgs/agentctl/agentctl/artifacts.py:86-103 | attempts begin as 1, 2, 3, and so on, and a wrapper gives up only to a marker that a canceller wrote for that very attempt |
| JobRun.LifePublishes | pkgs/agentctl/agentctl/run.py:1058-1223 | an undisturbed queued job begins the next attempt, runs its payload once, reads its own outcome, publishes it, and leaves neither a unit nor a marker |
| JobRun.SubmitTurns | pkgs/agentctl/agentctl/run.py:226-253 | the startup section by what the manager does: the marker ends it, a free name and a request that arrives start the unit, and only a refused bus backs off |
| JobRun.BackoffTurns | pkgs/agentctl/agentctl/run.py:268-289 | the back-off's looks: what the marker, an absence, a loaded unit and the end of the looks lead to |
| JobRun.AttemptEnds | pkgs/agentctl/agentctl/run.py:226-231 | a lock that others keep stalls the attempt, and a marker ends it before it submits |
| JobRun.UsedNameRefuses | pkgs/agentctl/agentctl/run.py:236-253 | a name in use refuses every submission, and a refused bus still asks for another try |
| JobRun.WrapperTurns | pkgs/agentctl/agentctl/run.py:940-1060 | what a begin that dies, a refusal, an occupied slot, a stopped orphan and a death leave |
| JobRun.QueueTurns | pkgs/agentctl/agentctl/launch.py:1468-1521 | what a retry, a clean and a unit that ends leave |
| JobRun.CompleteTurns | pkgs/agentctl/agentctl/run.py:1122-1150 | at the end of the wait the marker gives up, and otherwise an outcome is read exactly when the wrapper looks and a loaded unit has ended |
| JobRun.CancelTurns | pkgs/agentctl/agentctl/launch.py:1075-1167 | the sections of a cancel: when the not-started one gives up, what it removes, and when it reports |
| JobRun.CancelEnds | pkgs/agentctl/agentctl/run.py:1138-1170 | a cancelled running attempt stops and gives up, publishes, and consumes its marker |
| JobRun.MarkerEndsLife | pkgs/agentctl/agentctl/run.py:1058-1060 | an attempt that finds its marker submits nothing, publishes and consumes it |
| JobRun.PayloadAtMostOnce | pkgs/agentctl/agentctl/run.py:226-289 | in every run each attempt's payload is accepted at most once, and each submission after the first follows one more observation that the unit is absent |
| JobRun.MarkerEndsStartup | pkgs/agentctl/agentctl/run.py:227-230 | no submission follows a marker that the starting attempt can see |
| JobRun.NotStartedIsTrue | pkgs/agentctl/agentctl/launch.py:1107-1167 | a cancel reported as not started: every attempt has its outcome, none begins afterwards, and the canceller's own marker is gone |
| JobRun.OutcomeIsOwnIffAccepted | pkgs/agentctl/agentctl/run.py:1122-1143 | in every run, an outcome read from a unit is the attempt's own exactly when its own payload was accepted, and otherwise that of an attempt whose unit still held the name |
| JobRun.BorrowsIffNameTaken | pkgs/agentctl/agentctl/run.py:226-289 | at every reachable state with an attempt at its startup section, some continuation reads its outcome from another attempt's unit if and only if such a unit is loaded and no marker for the attempt is there |
| JobRun.BorrowedOutcomeHappens | pkgs/agentctl/agentctl/run.py:1128-1143 | a run in which a second attempt takes its outcome from the first attempt's ended unit |
| JobRun.QueuedCancelIff | pkgs/agentctl/agentctl/launch.py:1075-1167 | at every reachable state, an undisturbed cancel of a queued job removes it and reports it as not started if and only if its latest attempt left an outcome; otherwise, and only then, the coming attempt may still start |
| JobRun.QueuedCancelConfirms | pkgs/agentctl/agentctl/launch.py:1107-1167 | the finished case in full: the row gone, the marker dropped, the report made and nothing else changed |
| JobRun.QueuedEscapeHappens | pkgs/agentctl/agentctl/launch.py:1082-1106 | a reachable queued retry of a killed attempt that an undisturbed cancel does not stop |
| JobRun.Host.StartService | pkgs/agentctl/agentctl/run.py:202-289 | the startup loop on the object's own fields computes the specified startup, between whatever others do and whatever the manager answers; it ends by giving up to its marker, with a submission whose bus was not refused, with a unit found loaded, with the looks used up, or stalls at a lock that another holds |
| JobRun.RecoveredBusStarts | pkgs/agentctl/agentctl/run.py:226-289 | with nobody else acting, a bus refused any number of times within the looks and then back gets the payload: one more try after each absence seen, and the unit accepted |
| JobRun.FirstSightDecides | pkgs/agentctl/agentctl/run.py:255-289 | the first marker or timely look decides the back-off, whatever others do: give up, submit again after an absence, or leave a loaded unit; without either the service is not submitted again |
| JobRun.Host.SubmitOnce | pkgs/agentctl/agentctl/run.py:226-253 | one section submits unless the marker is there, and asks for another try exactly when the bus was refused |
| JobRun.Host.AwaitAbsence | pkgs/agentctl/agentctl/run.py:268-289 | the back-off loop computes the specified back-off, and answers nothing only when the service is to be submitted again |
| JobRun.Allocation.Begin | pkgs/agentctl/agentctl/artifacts.py:75-121 | the new number is one more than the greatest, and only a marker for it stays |
| JobRun.Allocation.Address | pkgs/agentctl/agentctl/launch.py:1250-1266 | the section's choice and mark, on the directory |
| Coverage.WalkIsExact | modules/lib/backup/snapshot-coverage.py:1348-1366 | the inventory holds exactly the source paths that are no socket and that neither they nor a directory above them omit, with their status |
| Coverage.OmittedRootsAreOmitted | modules/lib/backup/snapshot-coverage.py:1341-1351 | every omitted root is a source path that the policy omits |
| Coverage.OmittedAre | modules/lib/backup/snapshot-coverage.py:1341-1351 | the omitted roots are exactly the topmost paths that the policy omits |
| Coverage.StubsAre | modules/lib/backup/snapshot-coverage.py:1358-1361 | the stubs are exactly the kept directories with inode 2 other than the source itself |
| Coverage.ScanMeansCovers | modules/lib/backup/snapshot-coverage.py:1367-1436 | the metadata pass succeeds with nothing unseen if and only if each canonical path appears exactly once with matching metadata and kind, and nothing else appears but parts and what lies under an omitted root |
| Coverage.CoversIff | modules/lib/backup/snapshot-coverage.py:1338-1436 | the walk and the metadata pass accept exactly the dumps that hold each required path of the source once, with its mode, owner, group, mtime unless it is a stub, extended attributes, and by kind its link target, size, link or device, and nothing else but parts and what lies at or below an omitted root |
| Coverage.RequiredIff | modules/lib/backup/snapshot-coverage.py:1334-1357 | a path is required exactly when it is no socket and neither it nor anything above it is an ignored root or a directory that the cache pattern matches |
| Coverage.ComparisonMeans | modules/lib/backup/snapshot-coverage.py:1472-1492 | the content pass succeeds exactly when every record of a regular file is healthy and, unless it is a link, has the source's digest and size; it proves just the files it compares |
| Coverage.VerifiedIff | modules/lib/backup/snapshot-coverage.py:1365-1502 | for every two readings, verification succeeds if and only if the dump covers, every record of a regular file agrees, every link follows what it links to, and every regular file is compared or linked |
| Coverage.VerifiedWithDirectLinks | modules/lib/backup/snapshot-coverage.py:1260-1274 | when links name only compared files, their order does not matter: verification succeeds if and only if the dump covers, every record agrees and every regular file is compared or linked |
| Coverage.VerifiedReachesCompared | modules/lib/backup/snapshot-coverage.py:1251-1274 | if verification succeeds, from every regular file a chain of links that the archive names, no longer than there are linked files, ends at a file whose digest was compared |
| Coverage.VerifiedIsSound | modules/lib/backup/snapshot-coverage.py:1459-1493 | if both passes and the links succeed, the dump covers the inventory and every regular file restores to the source's bytes |
| Coverage.FullVerificationIsSound | modules/lib/backup/snapshot-coverage.py:1312-1502 | for every source tree and policy, in the source's own fields: each kept path that is no socket appears exactly once and faithfully, each regular one restores to its bytes, and nothing else is there but parts and what lies at or below a root that the policy omits |
| Coverage.LinkedArchiveVerifies | modules/lib/backup/snapshot-coverage.py:1459-1493 | an archive of a directory with a file and a hard link meets the assumptions and verifies, for all names and bytes |
| Coverage.Inventory.MarkSeen | modules/lib/backup/snapshot-coverage.py:1207-1212 | a path is marked once; a second time is refused |
| Coverage.Inventory.DeferHardlink | modules/lib/backup/snapshot-coverage.py:1251-1258 | the target is the last one given and the position is that of the first appearance |
| Coverage.Inventory.RequireData | modules/lib/backup/snapshot-coverage.py:1260-1274 | links are proved in order by targets proved before them, and then no regular file is unproved |
| Coverage.VerifyInventory | modules/lib/backup/snapshot-coverage.py:1365-1502 | the two loops over the mutable inventory accept exactly what the specification accepts |
| Sampler.ChosenIsLongest | modules/lib/backup/snapshot-coverage.py:1539-1566 | a pass selects the longest run within the byte, file and argument budgets |
| Sampler.LimitIsLoose | modules/lib/backup/snapshot-coverage.py:1519-1528 | the query's row limit never decides what is sampled |
| Sampler.SampleIsARun | modules/lib/backup/snapshot-coverage.py:1530-1566 | from any retained cursor a pass samples the longest run right after it, or from the beginning at the end, and samples something exactly when the first name fits |
| Sampler.EmptyCursorIsNone | modules/lib/backup/snapshot-coverage.py:1519-1533 | an empty cursor is no cursor |
| Sampler.WalkedIsFair | modules/lib/backup/snapshot-coverage.py:1519-1566 | over every inventory that a walk can find (lines 1348-1366 call `lstat` on each path, which Linux refuses beyond 4096 bytes): passes from no cursor sample each eligible file exactly once before they wrap, and from any cursor, one of another snapshot included, they reach each eligible file |
| Sampler.InventoryIsSampled | modules/lib/backup/snapshot-coverage.py:1519-1566 | from any cursor every regular file of the inventory that is no hard link, has an addressable name and is neither empty nor over the byte budget is sampled by some later pass, the names in byte order |
| Sampler.FairIffAllFit | modules/lib/backup/snapshot-coverage.py:1519-1566 | the general law of the selection, whatever the names: fair if and only if every name fits the argument limit |
| Sampler.OneLongNameIsUnfair | modules/lib/backup/snapshot-coverage.py:1555-1561 | the law's limit is sharp: one name a byte too long, which no walk can find, would never be sampled |
| Sampler.UnfitWedges | modules/lib/backup/snapshot-coverage.py:748-751 | before such a name every later pass would sample nothing |
| Sampler.Select | modules/lib/backup/snapshot-coverage.py:1539-1566 | the selection loop with its cursor that steps back |
| Sampler.SampleOnce | modules/lib/backup/snapshot-coverage.py:1530-1625 | one pass with its wrap, and the cursor it reports |
| Lifecycle.QueueIsThePending | modules/lib/backup/snapshot-coverage.py:294-329 | a queue is refused exactly when some listed snapshot's receipt is not its own or meets a latest marker whose snapshot has changed; otherwise it holds exactly the snapshots without a receipt, or with one that is not the latest marker and that the marker, where it says anything, has not passed, each once, newest first and the others in creation order |
| Lifecycle.UnacknowledgedIsQueued | modules/lib/backup/snapshot-coverage.py:294-329 | in every run a snapshot once there and never acknowledged is still there, and in every queue that is not refused |
| Lifecycle.VerifiedIff | modules/lib/backup/snapshot-coverage.py:242-276 | a receipt qualifies a snapshot exactly when the names, the filesystem, the archive and both identities agree |
| Lifecycle.ReceiptsAreOwn | modules/backup.nix:682-697 | in every run each receipt names its own snapshot and an archive made from it |
| Lifecycle.BackupPublishes | modules/backup.nix:682-697 | an undisturbed backup of a new snapshot leaves it, its archive, its receipt, and that receipt as the latest marker |
| Lifecycle.DeletedHadItsReceipt | modules/lib/backup/snapshot-coverage.py:354-380 | in every run each deleted snapshot had its own matching receipt and was not newer than the latest acknowledged one |
| Lifecycle.LatestIsKept | modules/lib/backup/snapshot-coverage.py:364-366 | in every run the snapshot of the latest marker exists with the identity the marker records, and no plan names it |
| Lifecycle.LatestNeverDecreases | modules/lib/backup/snapshot-coverage.py:279-291 | in every run the latest marker's creation identity never decreases |
| Lifecycle.AdvanceReaches | modules/lib/backup/snapshot-coverage.py:279-291 | publishing an acknowledgement leaves the latest marker at least as new as its snapshot |
| Lifecycle.PlanIs | modules/lib/backup/snapshot-coverage.py:354-380 | a plan holds exactly the snapshots other than the latest whose own receipt verifies to them, in creation order |
| Lifecycle.PlanMeans | modules/lib/backup/snapshot-coverage.py:354-380 | a plan is refused exactly when the latest marker or another listed receipt does not qualify, or one is newer; otherwise it holds every other snapshot with a receipt |
| Lifecycle.PlanIsCarriedOut | modules/backup.nix:701-729 | an undisturbed plan deletes exactly the snapshots it names |
| Lifecycle.PruneSpares | modules/backup.nix:704-723 | a busy snapshot is passed over and kept, and one that has changed ends the plan |
| Lifecycle.ReleaseKeeps | modules/backup.nix:701-729 | an undisturbed release that is not refused keeps of the volume exactly the latest snapshot and those without a receipt |
| Lifecycle.ReleasableIs | modules/lib/backup/snapshot-coverage.py:363-379 | what the loop collects, and that none of it is newer than the latest |
| Lifecycle.QueuedSnapshots | modules/lib/backup/snapshot-coverage.py:294-329 | the loop over the directory computes the queue or refuses |
| Lifecycle.VerifiedPrunePlan | modules/lib/backup/snapshot-coverage.py:354-380 | the loop over the directory computes the plan or refuses |
| EventReaders.Reader.LastMatchingLines | pkgs/agentctl/agentctl/cli.py:660-710 | for every file, block size, count and filter: the last accepted non-empty segments in order, an over-limit one as a gap with its length; after each block what is carried is the unfinished record or nothing of one over the limit, never more than limit and block allow, and no block is read once there is enough |
| EventReaders.Reader.ShownIs | pkgs/agentctl/agentctl/cli.py:653-686 | a record over the limit shows a gap with its length whatever the filter, any other its text or a gap with its length when it is not UTF-8, if the filter wants it |
| EventReaders.Reader.AcceptOlder | pkgs/agentctl/agentctl/cli.py:676-685 | accepting one older record keeps the newest accepted ones |
| EventReaders.Reader.BlockLines | pkgs/agentctl/agentctl/cli.py:688-708 | one block more contributes its segments, joined at the seam |
| EventReaders.Follower.FeedPart | pkgs/agentctl/agentctl/cli.py:784-805 | one part keeps the shown lines equal to the per-line result and the buffered bytes within the limit |
| EventReaders.Follow | pkgs/agentctl/agentctl/cli.py:777-805 | every division into chunks shows the same lines |
| EventReaders.TailAgreesWithFollow | pkgs/agentctl/agentctl/cli.py:660-805 | the readers agree except for empty lines and an unterminated last one |
| PressureReplay.Log.FoldIsLastEffective | pkgs/agentctl/agentctl/pressure.py:49-61 | replay gives each group its last effective event, over what was retained |
| PressureReplay.Log.EarlyApplication | pkgs/agentctl/agentctl/pressure.py:438-441 | an event applied before its own record is replayed changes nothing in the end |
| PressureReplay.Log.EventState | pkgs/agentctl/agentctl/pressure.py:114-170 | the cursor stands at a line start, exactly the records before it are applied, and a deadline saves no more |
| PressureReplay.CatchUp | pkgs/agentctl/agentctl/pressure.py:114-170 | over every run of growth, torn appends, rotations, interruptions and early application, catching up equals the last effective event of each group in the log |
| PressureReplay.CatchUpFromNothing | pkgs/agentctl/agentctl/pressure.py:114-170 | from the first meeting with a log: what a record of the log decides is so, and while the log is not rotated nothing else is paused |
| PressureReplay.UnloggedEvent | pkgs/agentctl/agentctl/pressure.py:242-270 | when an event that was never logged leaves the projection in agreement with the log |
| PressureReplay.UnloggedEventHappens | pkgs/agentctl/agentctl/pressure.py:242-270 | one lost append to an empty log leaves a pause that the log does not have |
| PressureController.OneChangePerPass | pkgs/agentctl/agentctl/pressure.py:431-488 | however its request is answered, a pass changes at most one group, resumes only its own pauses and pauses only running groups, and records only what was acknowledged |
| PressureController.PassDecides | pkgs/agentctl/agentctl/pressure.py:208-239 | what a pass does, in the averages and groups: at known averages below 10 it resumes the first managed group paused by agentctl, otherwise at 25 or more it pauses the first running group of the closing order |
| PressureController.QuietDrains | pkgs/agentctl/agentctl/pressure.py:445-465 | at quiet readings every own pause is resumed, one a pass, in the declared order |
| PressureController.SustainedCloses | pkgs/agentctl/agentctl/pressure.py:466-488 | under sustained pressure the running groups close one a pass in the declared order until none runs |
| PressureController.SettlesExactly | pkgs/agentctl/agentctl/pressure.py:208-239 | exactly when passes at one reading come to rest, that is, from some pass on every one is idle and no group changes |
| PressureController.RestlessReading | pkgs/agentctl/agentctl/pressure.py:208-239 | a reading and a state for which they never do |
| PressureController.ReopensIffOwn | pkgs/agentctl/agentctl/pressure.py:445-465 | over every sequence of passes, readings and answers: a paused group is ever reopened if and only if it is managed and paused by this controller |
| PressureController.LostAnswer | pkgs/agentctl/agentctl/pressure.py:449-485 | after a pause that was carried out and answered by an error no pass reopens the group; a lost resume is recorded by the next release |
| PressureController.LostPauseHappens | pkgs/agentctl/agentctl/pressure.py:475-485 | one lost answer that closes a running group for good, under the declared policy |
| PressureController.ResumesOnlyOwnCloses | pkgs/agentctl/agentctl/pressure.py:445-465 | with a replayed projection, a resumed group's last effective record is an own close, or the log has none and an own close was retained from before it |
| PressureController.Controller.Pass | pkgs/agentctl/agentctl/pressure.py:424-500 | the imperative pass computes the specified one |
| Compaction.Lossless | pkgs/agentctl/agentctl/event_compaction.py:53-74 | a rewritten line, merged with the outcome it names, is the original event |
| Compaction.RewriteMeans | pkgs/agentctl/agentctl/event_compaction.py:30-74 | exactly the finished queue tasks with an execution receipt and no reference count as embedding an outcome, exactly those whose files hold it are replaced, and what is left is said key by key |
| Compaction.PressureEventReads | pkgs/agentctl/agentctl/pressure.py:49-61 | which fields a pressure event is read from |
| Compaction.Idempotent | pkgs/agentctl/agentctl/event_compaction.py:30-37 | a second rewrite changes nothing, whatever the outcome files hold by then |
| Compaction.RewriteIsQuiet | pkgs/agentctl/agentctl/event_compaction.py:66-74 | a rewritten line is one line, and neither form is a pressure event |
| Compaction.CompactEvents | pkgs/agentctl/agentctl/event_compaction.py:78-133 | an unterminated tail refuses; what is published has the same number of lines, each kept or rewritten, with exact counts, and the check after writing never sees another line count |
| Compaction.Verify | pkgs/agentctl/agentctl/event_compaction.py:116-133 | the second pass accepts exactly lines that are kept or still resolve |
| Compaction.ReplayKept | pkgs/agentctl/agentctl/pressure.py:49-61 | the projection replayed from the compacted log equals the one from the original |
| Compaction.ReplayAfterPublication | pkgs/agentctl/agentctl/pressure.py:114-170 | the projection that starts over on the published file, with any number of the old records already applied, ends as the full replay of the old log |
| CaptureWriter.OrderedCapture | pkgs/sinnix-capture-mpris/monitor.py:180-224 | in every interleaving, completed writes followed by pending items hold the change events enqueued, in order and once each, and a drain after close leaves nothing |
| CaptureWriter.ChangesOne | pkgs/sinnix-capture-mpris/monitor.py:185-195 | a change event is anything but a heartbeat |
| CaptureWriter.StorageHoldsPrefix | pkgs/sinnix-capture-mpris/monitor.py:207-218 | storage holds a prefix of the change events even when a failed write had committed |
| CaptureWriter.FailureStops | pkgs/sinnix-capture-mpris/monitor.py:207-215 | a write that fails is the last one, whether or not it committed: its item and those behind it stay |
| CaptureWriter.ClosedAcceptsNothing | pkgs/sinnix-capture-mpris/monitor.py:182-184 | once the writer is closed nothing more is accepted |
| CaptureWriter.HeartbeatsAreSuperseded | pkgs/sinnix-capture-mpris/monitor.py:185-195 | a dropped item is a heartbeat, and a later kept heartbeat has the same player, status, title, artist and album |
| CaptureWriter.WaitingHeartbeatsAreOne | pkgs/sinnix-capture-mpris/monitor.py:185-195 | in every run no waiting heartbeat is followed by one of the same playback, so a stalled writer is not flooded |
| CaptureWriter.InFlightIsNeverReplaced | pkgs/sinnix-capture-mpris/monitor.py:186-218 | in every run, whatever is enqueued during a write, the item taken stays the head and is what the completed write records |
| CaptureWriter.CloseDrains | pkgs/sinnix-capture-mpris/monitor.py:199-224 | after close an idle drainer without failure writes all that is pending and stops |
| CaptureWriter.EnvelopeWriter.EnqueuePayload | pkgs/sinnix-capture-mpris/monitor.py:180-197 | the critical section makes the machine's step |
| CaptureWriter.EnvelopeWriter.TakeHead | pkgs/sinnix-capture-mpris/monitor.py:200-206 | the drainer takes the head or returns |
| CaptureWriter.EnvelopeWriter.Complete | pkgs/sinnix-capture-mpris/monitor.py:216-218 | a write that returns drops the head and clears the item in flight |
| CaptureWriter.EnvelopeWriter.Fail | pkgs/sinnix-capture-mpris/monitor.py:209-215 | a write that raises stops the drainer and keeps the item and those behind it, whether or not storage holds it |
| CaptureWriter.EnvelopeWriter.BeginClose | pkgs/sinnix-capture-mpris/monitor.py:220-223 | closing refuses later items and leaves the pending ones to the drainer |
| Framing.UnescapeInverts | pkgs/sinnix-capture-mpris/monitor.py:68-78 | one pass of unescaping inverts every escaping, literal entity text included |
| Framing.DecodeInverts | pkgs/sinnix-capture-mpris/monitor.py:59-64 | matching a record returns its field values, line breaks included |
| Framing.RecordIs | pkgs/sinnix-capture-mpris/monitor.py:47-57 | the text of a record |
| Framing.FollowRecords | pkgs/sinnix-capture-mpris/monitor.py:81-93 | the generator yields the framed records and reports an incomplete one |
| Framing.RoundTrip | pkgs/sinnix-capture-mpris/monitor.py:47-93 | for every list of messages, framing, matching and unescaping return exactly the list |
| Checkout.EmptyTree | pkgs/agentctl/agentctl/worktree_cleanup.py:100-114 | a tree is found empty exactly when it holds only listable directories, at most 256 of them |
| Checkout.CleanupObstacle | pkgs/agentctl/agentctl/worktree_cleanup.py:537-606 | the check finds no obstacle exactly on the releasable checkouts |
| Checkout.Inspect | pkgs/agentctl/agentctl/worktree_cleanup.py:585-606 | the worklist ends and passes exactly when every listed path is clear |
| Checkout.ReleaseIsComplete | pkgs/agentctl/agentctl/worktree_cleanup.py:559-606 | if it passes, every file below a listed path and outside disposable roots has a retained copy with the same contents |
| Checkout.ClearIffPreserved | pkgs/agentctl/agentctl/worktree_cleanup.py:585-605 | where every directory holds a preserved source, a path passes exactly when every file below it is preserved |
| Checkout.ClearIff | pkgs/agentctl/agentctl/worktree_cleanup.py:585-606 | for every tree: a path is clear exactly when everything the check comes to is fine: the listed path disposable or an empty tree of at most 256 directories, files preserved, directories above a preserved file, and listable unless disposable |
| Checkout.TwoFiles | pkgs/agentctl/agentctl/worktree_cleanup.py:585-606 | the trees that the two laws speak of exist |
| Checkout.CoveredIff | pkgs/agentctl/agentctl/worktree_cleanup.py:559-584 | the covered directories are those strictly above a preserved source |
| Checkout.IntactIff | pkgs/agentctl/agentctl/worktree_cleanup.py:559-584 | a preserved pair is intact when both ends are regular files with one digest |

## Left out

- Guarded cancellation with an expected attempt, operator edits of the queue, and truncation with regrowth past a saved offset: the code promises nothing there.
- A not-started cancel of a job whose launch input the canceller does not own writes no marker; only owned inputs are modelled.
- The settle loop after a cancel, the exit codes of `_classify`, the polling of `_wait_for_unit` and scratch removal: each reads one body. The machine lets a wrapper stop waiting, be killed or refuse at any point, and records only whose unit an outcome is read from.
- `adaptive_widths` and `pools.apply`: clamping widths between floor and ceiling would add only easy members.
- Cached operations: an idempotency key disables the cache, so a keyed launch never meets it.
- A launch input removed by hand: at most once rests on its being retained.
- Admission.Launcher.Enqueue: the `stashed` argument of `enqueue`, which no caller of the package sets.
- Admission.Launcher.Retry: the refusals for retired batch jobs and undrained cancellations are decided before admission and change nothing.
- Coverage.FullVerificationIsSound: extended attributes and ACLs are one comparable value, names are exact, and the lossy names of the listing are not modelled; the ambiguous ones are refused by the code.
- Coverage.VerifyInventory: which error is raised first, and the early refusal of roots that are absolute, climb or hold wildcards.
- PressureController.Controller.Pass: a deadline may also end a pass between a request and its record; the groups and the projection are then as after a lost answer.
- Sampler.SampleOnce: comparing the selected members with the archive, and the sorted query itself, which SQLite answers.
- Lifecycle.DeletedHadItsReceipt: how a receipt's proof is made is the subject of `Coverage.dfy`; removal of archives from the repository is not modelled.
- Lifecycle.BackupPublishes: the adoption of a marker written before per-snapshot receipts existed as the receipt of its snapshot.
- Compaction.CompactEvents: JSON text, digests, temporary files and publication are abstract; the outcome files may differ between and during the passes.
- Framing.RoundTrip: code points that `chr` accepts and Dafny's characters exclude (surrogates), and UTF-8 decoding of records.
- PressureReplay.CatchUp: an inode that is reused for a new log, and read errors in the middle of a replay, which return the state before it.
- Presentation, argument parsing, descriptor parsing, the telemetry collector, browser and desktop scripts.
