# Activation protocol of the quota window activator

This project models the part of the plugin that may spend a user's quota: the `Controller` (core/controller.go)
working on the `Store` (core/store.go), with the window, attempt and ledger records of core/model.go, the
confirmation rules of the two registered adapters, and the scheduler loop of cmd/plugin/runtime.go.

The central promise is the comment at core/controller.go:328-329: once the Sending transaction is durable no code path
may authorise another send for its cycles. It is proved for every run of the controller, with any quota reads, send
results, clock readings, failed writes, crashes at any instant and restarts.

## How the model is built

* `Transactions.dfy` gives every closure the controller hands to `Store.Update` as a function `Apply` of the durable
  state, built from one `Edit` per window record. `StateInvariant.dfy` is what all committed states satisfy,
  `Preservation.dfy` the proof that no transaction breaks it or takes a fence, attempt or activation back.
* `Files.dfy`, `Durability.dfy` and `Sequencing.dfy` model the snapshot and the write-ahead log as the chunks that were
  written (whole record, newline, torn bytes), so that a torn tail fuses with the next append. They prove that the files
  implement an atomic register under crashes at every instant of `persist`. `Store.dfy` has the classes `Disk` and
  `Store`, whose calls may fail or be cut off at any point; they are proved against the same functions.
* `Laws.dfy` says what each transaction leaves of the stored records, without speaking of `Apply`: `Leaves`. It is
  proved of every transaction, and the controller's methods promise it of the store's own state.
* `Machine.dfy` puts both together: a run is a sequence of events (reads and failed reads, plans, commits with the way
  each ended, sends and their answers, waits, crashes, restarts). `Safety.dfy`, `Origins.dfy`, `Lineage.dfy`,
  `Spacing.dfy`, `Admission.dfy`, `Lifecycle.dfy` and `CrashRuns.dfy` are theorems about all runs.
* `Controller.dfy` is the imperative controller. It keeps a ghost run; each method is proved to extend that run by
  possible events only and never to rewrite it, so every theorem about runs holds of the code. `Loops.dfy` has the loops
  inside the closures, `Traces.dfy` what a Tick and a round may add to the run, `Sends.dfy` what a call that ends well
  must have added and put on record for each send, `Recovery.dfy` and `Steps.dfy` the effect of single steps. `Runtime.dfy` has `nextDelay`, `runOnce` with its goroutines' calls in any interleaving, and `Live`,
  whole lives of the service across crashes.
* `Witness.dfy` builds runs event by event; `StaleRead.dfy` and `Crowding.dfy` use it to show what the code does not give.
  Their runs are made of Ticks, with the attempts `runGroup` builds and a clock that never goes back.

Times are integers (nanoseconds) with 0 for Go's zero time. A cycle ID is the triple it is the hash of, so it is
injective; window and instance keys are records rather than joined strings, and `KeyText.dfy` states exactly when the
joined strings would collide.

## Three things the code does not give

* A group of windows that needed no precheck is judged by the first read of its Tick. If an earlier group of the same
  Tick is verified in between, the send goes ahead on a baseline that a newer read may have overtaken:
  `StaleRead.AnyReadMayIntervene` for any read at all, `StaleRead.StaleSend` for a concrete one with the Antigravity
  adapter. `Tick` states exactly when the latest successful read is the one the group was judged by: the group had its
  own precheck, or no read has succeeded since the groups were formed. What holds at every send is
  `Admission.SendIsAdmitted` and `Traces.SendsWereDue`.
* The sends for one window need not be further apart than the skew. They are in every run whose confirming verification
  reads leave the reset where the baseline has it or move it past the skew (`Spacing.SendsAreSpaced`), and any other
  confirming read of a capable window leads to a run in which they are not (`Crowding.UntidyReadCrowds`). Antigravity's
  confirmations are all of the first kind exactly when the skew is at most two minutes. Codex counts usage falling to
  zero as a confirmation (adapters/codex/adapter.go:109-111), so with the reset moved by as little as a nanosecond it
  makes the second kind (`Crowding.CodexCrowds`).
* If a WAL write fails half-way without the process dying, after an earlier update that failed with its line already
  written, and the WAL can then not be removed, an acknowledged update is lost on the next load:
  `Sequencing.PartialWriteLosesUpdate`. `Sequencing.AcknowledgedDurableIff` gives the exact condition. The theorems about
  runs exclude that one conjunction: a tear that the process survives while a finished line stands above the state in
  memory. Tears by a crash, and survived tears over a WAL without such a line, are included.

## Model

| member | source | states |
|---|---|---|
| `Safety.AtMostOnce` | core/controller.go:311-351 | over every run with any reads, results, clock, crashes and restarts, no two sends have a cycle in common |
| `Safety.FenceSurvives` | core/controller.go:328-351 | after a send, load of the files at every later point gives a ledger that maps each of the attempt's cycles to it |
| `Safety.FenceSurvivesMidUpdate` | core/store.go:134-186 | the same at every instant inside any later update |
| `Safety.RecoveryExtendsAcknowledged` | core/store.go:59-117 | load never fails on files a run leaves, and gives a good state that keeps every fence, attempt past Prepared and activation acknowledged |
| `Lineage.LoadIsAcknowledgedOrTried` | core/store.go:59-117 | after any run load gives the last acknowledged state, or one that a later, unacknowledged Update of the run tried to write, reached from the acknowledged one by the run's own updates |
| `Lineage.RunFollows` | core/store.go:59-186 | memory and disk hold nothing but the acknowledged state and what has been tried since, in every reachable world |
| `Lineage.AckedByLast` | core/store.go:66-71 | the acknowledged state is the one the last acknowledged commit left in memory |
| `Safety.AcknowledgedIsLoaded` | core/store.go:66-71 | when an update is acknowledged, load gives exactly the state now in memory |
| `Safety.AcknowledgedOnlyExtends` | core/store.go:59-72 | along a run, acknowledged ledger entries, attempts past Prepared and activations are never undone |
| `Safety.SendsAreFenced` | core/controller.go:332-351 | whatever was sent for is in the acknowledged ledger, and what is about to be sent for never was |
| `Origins.RecordedMeansSent` | core/controller.go:351-358 | along every run, in memory, acknowledged and in what load gives: a cycle noted as sent, an attempt of phase Sent and a time of sending each stand for an earlier request of that attempt that returned no error |
| `Safety.ReachableStateIsGood` | core/controller.go:140-574 | in every reachable state: references intact, baselines carry their own cycle ID, ledger and attempts agree, every fenced cycle's window remembers its activation |
| `Safety.FencedCycleHasOneOwner` | core/controller.go:337-340 | a cycle is in the ledger iff exactly one attempt of phase Sending or later lists it, and the entry names that attempt |
| `Safety.PreparedOwnsNothing` | core/controller.go:311-325 | no ledger entry names a Prepared attempt |
| `Machine.ReachableInv` | core/controller.go:99-363 | files, memory and the position between Prepare and Send stay consistent in every reachable world |
| `Machine.StepFollows` | core/store.go:59-117 | whatever preorder contains the steps made, disk and memory never leave it |
| `Preservation.ApplyPreserves` | core/controller.go:140-647 | each of the twelve transactions keeps the state invariant and only extends the state |
| `Laws.EveryLeaves` | core/controller.go:140-647 | what each of the twelve transactions leaves of windows, attempts and ledger: which records change, what they then say, and that all others are as they were |
| `Laws.NoneLeftBehind` | core/controller.go:195-201 | after reconciling, no capable window reported in use keeps a baseline whose reset plus the skew lies before the reported one, whatever its state was; a window so moved carries the read's reset and cycle, is NormalReset, joins no group and has no active attempt |
| `Laws.MovesIff` | core/controller.go:176-201 | reconciling gives a known window the read's baseline iff it is capable and rolled over, or lazy, waiting and never activated; otherwise the baseline stays |
| `Laws.PrecheckLeavesNoneBehind` | core/controller.go:405-410 | the second read recognises a rollover in the same way, iff the reset is past the skew |
| `Laws.LazyFirstReadJoins` | core/controller.go:150-167 | a capable window first seen lazy joins a group and asks for its precheck, whenever its reset is |
| `Laws.ConfirmationTaken` | core/controller.go:517-530 | a verification read the adapter confirms leaves the window Confirmed on the baseline it reports, any other leaves it in RetryWait on its old one |
| `Laws.CodexRolloverConfirmed` | adapters/codex/adapter.go:105-113 | with Codex and a skew of at least two minutes, a verification read that shows a rollover leaves the window Confirmed on the baseline it reports |
| `Laws.CodexConfirmedIff` | adapters/codex/adapter.go:105-113 | with Codex a window ends Confirmed iff the read is not lazy and its reset is more than two minutes later or its usage fell to zero; a lazy read never confirms |
| `Laws.AntigravityConfirmedIff` | adapters/antigravity/adapter.go:149-154 | with Antigravity a window ends Confirmed, on the reported baseline, iff the reset is more than two minutes later, whatever usage and lazy hint say |
| `Laws.FailuresBackOff` | core/controller.go:630-645 | the n-th failed read in a row waits the n-th delay and the last one from then on, on an unchanged baseline |
| `Laws.FailuresGiveUp` | core/controller.go:630-645 | with a retry limit, failures past it wait the whole interval |
| `Spacing.SendsAreSpaced` | core/controller.go:183-200 | in every run whose verifications of a window, when they confirm, read its reset unmoved or past the skew, the resets of two sends for it differ by more than the skew |
| `Spacing.SendCountBound` | core/controller.go:522-526 | so with resets in [lo, hi] there are at most (hi - lo) / skew + 1 sends for the window |
| `Spacing.AntigravityRunsAreTidy` | adapters/antigravity/adapter.go:149-154 | with Antigravity and a skew of at most two minutes every run is such a run |
| `Crowding.UntidyReadCrowds` | core/controller.go:517-526 | from any other confirming read of a capable window there is a run of Ticks that sends for it twice with resets no more than the skew apart |
| `Crowding.CodexCrowds` | adapters/codex/adapter.go:105-113 | for Codex: usage falling to zero with the reset moved, but not past the skew, is such a read |
| `Crowding.OneNanosecond` | adapters/codex/adapter.go:109-111 | a concrete one, with the reset one nanosecond later |
| `Adapters.AntigravityTidyIff` | adapters/antigravity/adapter.go:149-154 | Antigravity's confirmations all leave the reset or pass the skew iff the skew is at most two minutes |
| `Adapters.CodexUntidyIff` | adapters/codex/adapter.go:105-113 | a Codex confirmation does neither iff it is taken from usage alone while the reset moved by no more than the skew, or back; it is one of the others iff the reset is more than two minutes later, or usage fell with the reset unmoved or past the skew |
| `Adapters.AntigravityBuckets` | adapters/antigravity/adapter.go:82-88 | Antigravity can activate exactly the four known buckets, each in its own group, with a window of five hours or a week |
| `Adapters.CodexNeverTidy` | adapters/codex/adapter.go:109-111 | so Codex has untidy confirmations whatever the skew |
| `Admission.SendIsAdmitted` | core/controller.go:150-228 | for each window of a send: earlier in that Tick a read, judged at once against the durable baseline now spent, showed it activatable and still lazy |
| `Traces.SendsWereDue` | core/controller.go:150-228 | for every send of a Tick and each window of it: that Tick's reconciliation of its first read joined the window, capable and lazy or past reset plus grace, with the very baseline cycle the send spends |
| `Admission.SendFollowsFence` | core/controller.go:311-351 | right before a send come the Prepared and the Sending commit of that attempt, both acknowledged |
| `Admission.DryRunNeverArms` | core/controller.go:278-290 | a dry run never prepares, fences or sends |
| `StaleRead.AnyReadMayIntervene` | core/controller.go:132-136 | from a Tick that forms two groups of lazy windows, whatever the read that verifies the first, the second is sent for and its latest read is not the one that judged it |
| `StaleRead.StaleSend` | core/controller.go:351-362 | a concrete run of two Ticks in which the latest read shows the window rolled over and its old cycle is sent for all the same |
| `Traces.NextGroup` | core/controller.go:257-290 | group by group: a send covers one group only, no group twice, and its read is the latest iff it had a precheck or no read has succeeded since |
| `Grouping.VerifyOnlyIsAbsorbing` | core/controller.go:183-212 | a window whose baseline cycle is fenced never joins a group; whatever joins carries an unfenced cycle |
| `Grouping.JoinsIff` | core/controller.go:150-229 | exactly the windows left PendingPrecheck or LazyDetected join; all others get a time to be looked at again |
| `Grouping.LazyNeedsDurableBaseline` | core/controller.go:202-228 | joining without a second read needs the stored baseline, and then the window is cleared |
| `Grouping.JoinsOnlyWhenDue` | core/controller.go:157-228 | a window joins only if lazy or past reset plus grace, and capable |
| `Grouping.JoiningExact` | core/controller.go:145-229 | the joining records are exactly those of the observation whose verdict says so, each once |
| `Grouping.ListedGroupsPartition` | core/controller.go:245-254 | the returned groups are non-empty, disjoint and together hold exactly the joining records |
| `Grouping.OrderIsIrrelevant` | core/controller.go:123-131 | any permutation of the provider's windows reconciles to the same state and groups |
| `Grouping.OrderKeepsAcceptance` | core/model.go:188-202 | and is accepted or refused alike |
| `Lifecycle.BaselineMovesOnlyBy` | core/controller.go:183-200 | a baseline moves only on a rollover past the skew, a confirmation, or while the window was never activated |
| `Lifecycle.FencedBaselineMovesOnlyBy` | core/controller.go:487-539 | while its cycle is fenced, only an observed rollover or a confirmed verification gives a window a new baseline |
| `Lifecycle.PhasesOnlyAdvance` | core/controller.go:541-555 | along a run an attempt past Prepared stays, keeps its cycles, never goes back a phase, and Completed is final |
| `Lifecycle.OnlyPreparedDeleted` | core/controller.go:452-467 | only a Prepared attempt is ever deleted |
| `CrashRuns.CrashOnlySequences` | core/store.go:62-71 | with crash faults only: valid records with equal sequence are equal, and each update writes strictly above them all |
| `Sequencing.UpdateWritesAbove` | core/store.go:66-71 | the next sequence is above every valid record on disk |
| `Sequencing.CrashKeepsDiscipline` | core/store.go:119-186 | a crash at any instant keeps that discipline for the state load then gives |
| `Sequencing.RetryWinsTie` | core/store.go:90-97 | after an update that failed with its line written, the next acknowledged update wins the tie in load |
| `Sequencing.PartialWriteLosesUpdate` | core/store.go:141-145 | a partial write survived without a crash can make an acknowledged update vanish |
| `Sequencing.AcknowledgedDurableIff` | core/store.go:180-185 | with partial writes allowed, exactly when an acknowledged update is what load gives |
| `Files.LoadPicks` | core/store.go:74-117 | load gives the last of the highest-numbered states that decode, and the empty state only with nothing valid and no snapshot |
| `Durability.LoadDescends` | core/store.go:74-117 | load succeeds with the snapshot's state or one descended from it |
| `Durability.InstantKeepsFiles` | core/store.go:119-186 | every instant of persist leaves files from which load works, on a base that has only moved forward |
| `Durability.UpdateKeepsInv` | core/store.go:59-72 | the store is an atomic register: an update happens whole or leaves a state recovery may still give |
| `Durability.ErrorKeepsInv` | core/store.go:141-178 | an update that fails leaves the process where it was, even with part of its line in the WAL, unless a finished line stands above memory |
| `Durability.ScanLine` | core/store.go:90-97 | what each instant of an append does to the decodable lines; behind a torn tail the new record does not decode |
| `StoreModule.Store.ReadBest` | core/store.go:74-117 | the scanning loop computes the specified load |
| `StoreModule.Store.Persist` | core/store.go:119-186 | the files end as the specification says for the way the call ended |
| `StoreModule.Store.Update` | core/store.go:59-72 | memory changes iff the update was saved, to the stamped state |
| `StoreModule.Disk.AppendLine` | core/store.go:137-145 | an append ends with the file untouched, merely created, torn, unterminated or whole |
| `Normalize.NormalizeWindows` | core/model.go:188-202 | accepts iff all windows are valid with distinct buckets; gives the strictly sorted permutation; reports the first offender |
| `Normalize.NormalFormUnique` | core/model.go:200-201 | there is one such permutation |
| `KeyText.SharedWindowKeyIff` | core/model.go:179-181 | two instances can share a window key iff one's text, with its separator, begins the other's |
| `KeyText.WindowKeyInjective` | core/model.go:55-57 | without a separator in the three fields the window keys never collide |
| `KeyText.PipeInAuthIndexCollides` | core/model.go:55-57 | a separator in an AuthIndex can make them collide |
| `Transactions.NewConfig` | core/controller.go:45-60 | rejects negative durations, fills in the default interval, skew and suppression where unset, changes nothing else |
| `Loops.TouchWhere` | core/controller.go:600-647 | a loop over the whole table in any order edits exactly the selected records |
| `Loops.ReconcileBuckets` | core/controller.go:142-229 | the loop's table, groups and seen set, though each turn reads the table it is changing |
| `Loops.PrecheckRecords` | core/controller.go:380-425 | the precheck loop's table and the confirmed records |
| `Loops.PrecheckYieldsCandidates` | core/controller.go:412-423 | the confirmed records are unfenced, cleared and lazy; every other record of the group is scheduled |
| `Loops.FindFenced` | core/controller.go:312-316 | finds a fenced cycle iff there is one |
| `ControllerModule.Controller.Tick` | core/controller.go:99-138 | the already-attempted guard is never taken; at most one send per group formed, each fresh exactly when stated; other instances untouched; once the retirement is committed, replaced identities are Disabled however the Tick ends. Nil: each group formed was sent for or stopped by its precheck, each new attempt has exactly one send and each send its outcome on record, every window of the instance is scheduled; for a disabled credential, its windows are Disabled without a next check and all else is as before |
| `ControllerModule.Controller.ReconcileObservation` | core/controller.go:140-255 | on nil each reported window is judged by the read as `ReadReconciled` says (first seen, incapable, migrated, rolled over, waiting, fenced, lazy, ambiguous), absent ones wait, all else stays; the groups listed are those of the joining windows |
| `ControllerModule.Controller.Observe` | core/controller.go:119-131 | a failed read is noted on every window of the instance with its backoff, a malformed one changes nothing, and a good one is reconciled at once |
| `ControllerModule.Controller.RunGroup` | core/controller.go:257-363 | at most one send, for this group, after its precheck or at once; touches only its windows, cycles and one new attempt. Nil outside a dry run: exactly one send with all that follows it, or a precheck that confirmed nothing; what became of the send is on record |
| `ControllerModule.Controller.Activate` | core/controller.go:291-306 | without a sender nothing happens; without a usable plan the failure is noted on the group; nil means planned, sent and settled, by an attempt with the configured times |
| `ControllerModule.Controller.FenceAndSend` | core/controller.go:330-362 | nil means one send of the attempt right after its fence, followed by exactly what its answer calls for, and that outcome on record |
| `ControllerModule.Controller.Settle` | core/controller.go:352-362 | after an error: Unknown with that error, no time of sending, every cycle's result unknown, its windows on verify-only, and no further event; without one: recorded as sent, waited for and verified, and left Completed as sent, or Unknown if wait or read failed |
| `ControllerModule.Controller.RunGroups` | core/controller.go:132-136 | groups do not disturb each other; nil leaves every window scheduled, every group sent for or prechecked, and one send with its outcome on record for each new attempt |
| `ControllerModule.Controller.PrepareAttempt` | core/controller.go:311-327 | returns already-attempted iff a cycle is in the ledger, and then changes nothing |
| `ControllerModule.Controller.FenceAttempt` | core/controller.go:330-350 | Sending phase and ledger entries in one transaction, refused iff the attempt is not Prepared any more |
| `ControllerModule.Controller.PrecheckWithRead` | core/controller.go:365-431 | never sends; confirmed records remain candidates, all others are scheduled |
| `ControllerModule.Controller.VerifyAfterRead` | core/controller.go:487-539 | nil means a good read, its verdict on every window and Completed, or a failed read and Unknown with its error; a malformed read changes nothing |
| `ControllerModule.Controller.MarkSendOutcome` | core/controller.go:541-577 | not-found iff the attempt is gone; otherwise phase, time, error and result are in the attempt, in the entry of each of its cycles and on each of its windows, and nowhere else |
| `ControllerModule.Controller.Recover` | core/controller.go:433-485 | never sends; nil leaves each attempt of the instance Unknown or Completed, and all Completed iff there was one good read for each in flight |
| `Recovery.DrainedAll` | core/controller.go:449-484 | at the end of the recovery loop: all drained, and all finished iff each in flight was |
| `ControllerModule.Controller.RetireReplacedInstances` | core/controller.go:615-628 | on nil exactly the credential's windows of other identities are Disabled without a next check, and all else is as before |
| `ControllerModule.Controller.BlockCredential` | core/controller.go:90-94 | never sends; on nil every window of the credential is AuthBlocked with the reason and without a next check, and every other window, every attempt and the ledger are as before |
| `ControllerModule.Controller.Restart` | core/store.go:38-47 | loading what the last process left never fails and loses nothing acknowledged |
| `Steps.TargetsMayBePrepared` | core/controller.go:305-316 | no ledger entry can stand in the way of an attempt built from a ready group |
| `Steps.RetireEffect` | core/controller.go:115-118 | after retirement every window of the credential is of the current identity or Disabled |
| `Effects.NamedFrame` | core/controller.go:279-574 | a transaction on named windows changes those windows, their cycles and its own attempt only |
| `Effects.ReconcileSchedulesOrGroups` | core/controller.go:145-240 | after reconciling, each window of the instance has a next check or is in a group; others are untouched |
| `RuntimeModule.NextDelay` | cmd/plugin/runtime.go:77-95 | the least of the interval and each awaited window's wait, at least a second, in any map order |
| `RuntimeModule.LeastWaitUnique` | cmd/plugin/runtime.go:82-93 | there is one such delay |
| `RuntimeModule.Service.Advance` | cmd/plugin/runtime.go:137-178 | exactly which call a job makes at each stage; a job past Recover makes its Tick call, whatever Recover returned, and only that call may send |
| `RuntimeModule.Service.Jobs` | cmd/plugin/runtime.go:122-135 | one job for each eligible credential and no others |
| `RuntimeModule.Service.RunOnce` | cmd/plugin/runtime.go:114-184 | in any interleaving of the goroutines' calls, every send of the round lies in the Tick of an instance recovered earlier in the round; every eligible credential has its call and every recovery its Tick; a dry run never sends |
| `RuntimeModule.Live` | cmd/plugin/runtime.go:47-75 | the whole service through any number of rounds, crashes and restarts sends at most once per cycle and only for windows that were due, and every fence is in what the disk loads as |

## Left out

- HTTP, the C ABI, host callbacks, YAML configuration, the management page and logging: plumbing around the protocol.
- Reconfiguration while running, and two processes on one state directory: the proofs assume one owner at a time (README.md:32 of the repository asks for one directory per process) and one configuration for the whole run.
- A partial WAL write that the process survives while a finished line stands above the state in memory: excluded from runs, because durability fails there; see `Sequencing.PartialWriteLosesUpdate`.
- Other read errors of load (permissions, the scanner's 16 MB line limit), MkdirAll and JSON errors: not modelled as separate outcomes; an update that fails before writing is the Untouched error.
- The two-rename fallback for Windows: replacement of the snapshot is atomic, as on Unix.
- SHA-256, JSON, random bytes and time formatting: a record decodes iff it is whole, a cycle ID is what it is the hash of, a new attempt ID is fresh, cloning a state is the identity.
- Clock: any reading past Go's zero time, one per transaction even where the code reads it once per record.
- Integer widths: the sequence number and durations are unbounded.
- RetryDelays: taken as non-negative, like the built-in ones, which the configuration cannot change.
- Adapters without activation support and adapters the runtime does not register; parsing of quota responses, computing of the lazy hint, and the case and space folding of Antigravity bucket IDs.
- Credentials' contents, request payloads, plans beyond whether one was obtained, `safeError` redaction and the semaphore: invisible to the protocol.
- Fields the protocol never reads (ServerTime, CredentialFP and AuthIndex of records).
- Start and Stop of the background goroutine, and lastRun and lastError: only the loop body is modelled.
- ControllerModule.Controller.Recover: visits the attempts in any order, which includes the sorted order of the code; the set of attempts is taken from the controller's own state instead of a copy of it.
- Admission.SendIsAdmitted: speaks of a read earlier in the Tick, not of the latest one, because the code does not give that; Tick says exactly when it does.
- RuntimeModule.Service.RunOnce: a goroutine's call into the controller is one step, because the controller's mutex is held throughout; locks and channels themselves are not modelled.
- Crowding.UntidyReadCrowds: asks that the window's capability does not depend on where its reset is, which holds of both registered adapters, and that resets are past Go's zero time.
