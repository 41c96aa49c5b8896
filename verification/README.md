# Verified model of the lottery workbench core

This project models the parts of the workbench that must stay correct across crashes, failed disk
writes, lost replies and concurrent callers, and proves what they guarantee. `dafny verify
dfyconfig.toml` checks everything.

Two kinds of files work together. Value-level step systems (`PaidProtocol`, `PlanProtocol`,
`KeyedLock`, `LockOrder`, `BrokerRace`) define what may happen, one step at a time, with every
interleaving of platform steps, crashes and other callers; their theorems hold over all runs. Classes
follow the code's own control flow over mutable fields. `PaidRunner.Runner`, `Scheduler.Scheduler` and
`LockTable.LockTable` carry ghost state that follows the step system beside them, so its theorems apply
to the code path; `DailyClaim.ClaimRunner` refines a relation on single calls, whose runs have theorems
of their own. `State.Store`, `Broker.Broker`, `Sessions.Manager` and `Accounts.Registry` follow no step
system: their contracts say directly what a call does. `LockOrder` and `BrokerRace` are machines of their
own, tied to no class. The platform, the random source and the outcome of every disk write are chosen
nondeterministically. Each class counts its faults (failed writes, failed requests); contracts that
start with an unchanged fault count say what an undisturbed call must do, the others hold in any case.
What the platform showed, was asked and answered is kept in ghost logs (`looks`, `wire`, `log`, `history`,
`talk`, `calls`, `issued`) that grow where the platform is met or an executor reports; the contracts state
results by what the logs hold and by the record's own fields, not by the helpers the methods call.

## What is modelled

- **The store** (`State`): actions, plans, schedules and the log slice, each operation with its one
  atomic write and its rollback. `Valid` says that readers of memory see exactly what is on disk, so a
  restart at any point loses nothing and a failed write changes nothing. The log filters run in place
  over their backing array.
- **Paid actions** (`PaidProtocol`, `PaidRecovery`, `PaidRunner`): draw purchases and the pass unlock, from
  the record's status and started mark to POST, reconciliation, key rotation and replay. One day, one account.
- **The daily claim** (`DailyClaim`): the platform takes no idempotency key here, so only the record keeps
  a claim from being repeated.
- **Automatic plans** (`Clock`, `PlanProtocol`, `DayPlan`, `Executors`, `Scheduler`, `Keys`): creation,
  pruning, execution, postponement and resume, at a fixed +8 hours, and the key strings. Claim plans run the
  daily claim itself, on the store's own records.
- **Locks** (`KeyedLock`, `LockTable`, `LockOrder`): the reference-counted keyed mutex whose entries come
  and go, and deadlock freedom of the nesting plan, action, auth, store.
- **Sessions** (`Vault`, `Ledger`, `Ranking`, `Sessions`, `SessionAgreement`, `Broker`, `BrokerRace`): the
  recovery ladder of the broker, the session ledger, cleanup and what its preview announces, the capacity
  guard, and concurrent callers racing for one account.
- **Account codes** (`Accounts`): the watermark that keeps deleted codes from being reused.
- **Money** (`Decimal`, `Money`): twelve-decimal rendering, the dollar display and native conversion,
  over the reals (which include every rational the code handles).

## Where the code departs from its comments

- The postponement guard compares with a UTC midnight, so a check-in that was not active enough is
  given up in the Beijing hours 23 and 7, not only before midnight (`Clock.SkipsExactlyAt23And7`).
- The log line of a postponed check-in is lost whenever the schedule identifier holds a colon, which all
  generated identifiers do (`Keys.CoordinatesReadBack`, `Keys.GeneratedIdIsLost`).
- A schedule named like an action kind can block the scheduler for good. `LockOrder.DeadlockIffTangled`
  gives the exact condition: a draw schedule named `manual_draw`, a claim schedule named `daily_claim`, or,
  with a second executor, the two crossed on one account and date. The service starts one scheduler.
- A plan already terminal would be overwritten by a second finish; terminality rests on the check that
  begins a plan (`State.Store.BeginPlan`, `State.Store.FinishPlan`, `PlanProtocol.TerminalIsFinal`).
- A claim plan is completed exactly when the claim call returned, whatever its record says. A refused first
  claim leaves a failed, retryable record under a completed plan (`Scheduler.RefusedClaimCompletesPlan`).
  `Scheduler.CompletedPlanIsClaimIff` says which returned records make the claim itself completed.
- A purchase record marked started holds every later purchase of the day back until it is recorded as done,
  and that is possible exactly while its key is charged or may still be charged
  (`PaidRecovery.FinishesIffChargeable`). A process that dies between the started mark and the request leaves
  a record that never can (`PaidRecovery.StuckIsReached`). A charged one is proven by any truthful dashboard
  (`PaidRecovery.ChargedIsProven`). A started pass completes on the first dashboard that shows it unlocked
  (`PaidRecovery.PassCompletesIffShown`); `PaidRecovery.PassFinishesIffUnlockable` says when one can still come.
- The cleanup revokes what its preview announced only under a condition: the two rank sessions by different
  times, break ties at will and treat the session in use differently. `SessionAgreement.NamesTheSameIff` gives
  the exact condition, `SessionAgreement.CountsAgreeUnlessUnflagged` the one for equal counts, and
  `SessionAgreement.PreviewNamesAnother` two sessions where the wrong one goes.
- A stored dollar amount leads back to the native amount for every amount exactly when a dollar has at most
  10^12 native units (`Money.AllRecoveredIff`, `Money.AmountIsLost`).
- The exact text of a tiny negative amount is `-0` (`Money.NegativeDust`), and amounts below half of 10^-12
  display as a bare `$0` (`Money.BareZeroIsDust`).

## Model

| member | source | states |
|---|---|---|
| `State.FilterIsExact` | internal/state/store.go:701-752 | the in-place filter keeps exactly the accepted entries, at strictly increasing positions |
| `State.Store.Open` | internal/state/store.go:197-234 | memory after opening is the file's contents |
| `State.Store.Persist` | internal/state/store.go:820-865 | a write makes all of memory durable or leaves the file as it was |
| `State.Store.GetOrCreateAction` | internal/state/store.go:272-305 | one record per key, created under an unused idempotency key, rolled back when the write fails |
| `State.Store.UpdateAction` | internal/state/store.go:307-323 | the update is durable or undone |
| `State.Store.ResetRetryableAction` | internal/state/store.go:392-414 | only a retryable record whose side effect has not started goes back to pending |
| `State.Store.RotateRepeatableAction` | internal/state/store.go:416-457 | only a finished or refused record that is not started gets a new key, with its evidence cleared |
| `State.Store.EnsurePlans` | internal/state/store.go:525-561 | adds exactly the missing requested plans in one write, each under its own new key, and leaves the others alone |
| `State.Store.BeginPlan` | internal/state/store.go:599-626 | a terminal plan is never begun again |
| `State.Store.FinishPlan` | internal/state/store.go:628-668 | accepts only terminal statuses, and looks at no old status |
| `State.Store.PostponePlan` | internal/state/store.go:1166-1198 | only a plan that has not ended goes back to pending, at the given instant |
| `State.Store.AppendLog` | internal/state/store.go:670-685 | appends in order or not at all; blank coordinates are refused |
| `State.Store.FilterLogs` | internal/state/store.go:716-751 | compaction over the slice's own array equals the specification filter |
| `State.Store.PruneAutoDrawData` | internal/state/store.go:701-752 | drops exactly the plans and logs before the cutoff, or nothing when the write fails |
| `State.Store.RemoveAccountScopedState` | internal/state/accounts.go:279-344 | drops exactly one account's entries, or nothing when the write fails |
| `State.Store.SetDrawSchedules` | internal/state/schedules.go:79-119 | replaces one account's list only by one of at most twelve entries under distinct identifiers with times of the day, and a failed write leaves every visible list as it was |
| `PaidProtocol.RunKeepsInv` | internal/service/purchase.go:24-430 | the invariant tying record, wire, platform and call position holds in every reachable state |
| `PaidProtocol.NoKeyIsLeftOpen` | internal/service/purchase.go:37-116 | a chargeable key, and a current key sent but neither refused nor proven, is durably marked started; every other key ever sent is proven or was refused each time |
| `PaidRecovery.EveryKeyIsResolved` | internal/service/purchase.go:37-116 | every key ever sent is proven by the dashboard, was refused in words for want of balance, or is the current key of a started record |
| `PaidProtocol.ChargesAreCompletions` | internal/service/purchase.go:312-376 | conservation: the day's charges are the recorded completions plus at most the one key still held open |
| `PaidProtocol.PassIsPaidAtMostOnce` | internal/service/purchase.go:118-216 | a day charges the pass at most once, under the record's key |
| `PaidProtocol.EachKeyIsSentByOneCall` | internal/service/purchase.go:392-430 | each key is sent by one call, at most twice, the second only after a 401/403, always after its durable started mark |
| `PaidProtocol.StartedHoldsBack` | internal/service/purchase.go:51-67 | a started record lets no later call send until its own success is recorded |
| `PaidProtocol.UnchargeableStaysStuck` | internal/service/purchase.go:218-252 | a started purchase whose key will never be charged stays started and nothing more is sent that day |
| `PaidRecovery.ChargedIsProven` | internal/service/purchase.go:76-91 | in every run, a charged key still marked started is proven by every truthful dashboard, because the count before it is durable |
| `PaidRecovery.CompletedIffCharged` | internal/service/purchase.go:312-334 | a record that is not started, or that the dashboard just read leaves unproven, is completed exactly when its key was charged |
| `PaidRecovery.FinishesIffChargeable` | internal/service/purchase.go:218-252 | a started purchase can still be recorded as done if and only if its key is charged or may still be charged |
| `PaidRecovery.StuckIsReached` | internal/service/purchase.go:76-93 | a run in which a process dies between the started mark and the request, and the record can never finish |
| `PaidRecovery.PassCompletesIffShown` | internal/service/purchase.go:334-356 | whatever happened before, a pass completes exactly on a dashboard that shows it unlocked, and stays open on any other |
| `PaidRecovery.PassFinishesIffUnlockable` | internal/service/purchase.go:254-288 | a started pass can still be recorded as done, without being unlocked elsewhere, if and only if it is unlocked or its key may still be charged |
| `PaidRunner.Runner.PurchaseDraw` | internal/service/purchase.go:24-116 | the call follows the protocol; undisturbed the new record is exactly what the last answer and the dashboards read before and after say, counted by their own fields, and is completed exactly when its key is charged |
| `PaidRunner.Runner.PurchaseExisting` | internal/service/purchase.go:37-62 | the branch for an existing purchase record: reconcile by the dashboard read, start over, resume, or replay for a twin that finished meanwhile |
| `PaidRunner.Runner.Request` | internal/service/purchase.go:76-108 | evidence and started mark are durable before the first request; undisturbed the record ends as the answer and the next dashboard say, or completed without a request for an unlocked pass |
| `PaidRunner.Runner.RecordUnlocked` | internal/service/purchase.go:171-187 | a pass found unlocked is recorded as completed before the snapshot, whose failure still fails the call |
| `PaidRunner.Runner.RecordRefusal` | internal/service/purchase.go:94-107 | an insufficient balance leaves a retryable record, and its key was not charged |
| `PaidRunner.Runner.SendAndSettle` | internal/service/purchase.go:93-116 | the record ends as the answer says: refused, or decided by the dashboard read next, pending or unknown while it shows nothing |
| `PaidRunner.Runner.PreflightError` | internal/service/purchase.go:378-390 | a failure before the request records a refusal and sends nothing |
| `PaidRunner.Runner.UnlockDailyPass` | internal/service/purchase.go:118-216 | likewise for the pass: completed exactly when the dashboard read after the request, or before it, shows it unlocked; a completed pass is replayed |
| `PaidRunner.Runner.UnlockExisting` | internal/service/purchase.go:130-146 | the branch for an existing pass record, a started one completed exactly when the dashboard read shows it unlocked |
| `PaidRunner.Runner.Reconciliation` | internal/service/purchase.go:218-288 | reconciling sends nothing and completes the record exactly when the dashboard it reads shows success; a pending record stays pending, any other becomes unknown |
| `PaidRunner.Runner.FinishFromDashboard` | internal/service/purchase.go:312-376 | completes exactly when the dashboard proves success, else keeps the record started with the fallback status |
| `PaidRunner.Runner.PostWithRecovery` | internal/service/purchase.go:392-430 | one request, repeated once under a renewed session after a 401/403 |
| `PaidRunner.Runner.RotateAndPerform` | internal/service/purchase.go:51-93 | a repeatable record starts over under a key never used before |
| `DailyClaim.Added` | internal/service/daily_claim.go:279-284 | the added count is max(0, after - before), zero when either is missing |
| `DailyClaim.CompletedIsAbsorbing` | internal/service/daily_claim.go:19-133 | after completion nothing is sent, the record never changes and every answer repeats the counts the completing call answered with |
| `DailyClaim.ReclaimedOnlyAfterRefusal` | internal/service/daily_claim.go:135-234 | a later call claims again only if the claim just before was explicitly refused |
| `DailyClaim.AlwaysGuarded` | internal/service/daily_claim.go:19-133 | a record that lets a call claim never follows an unrefused claim |
| `DailyClaim.CompletedIff` | internal/service/daily_claim.go:19-234 | exactly when an undisturbed call answers with a completed claim, and exactly when with a failed one, by the last answer and the counts shown |
| `DailyClaim.ClaimRunner.ClaimDaily` | internal/service/daily_claim.go:19-133 | every call is a transition of the claim relation that touches no other record; undisturbed the record and the answer hold exactly the counts shown or granted, and their difference |
| `DailyClaim.ClaimRunner.ClaimExisting` | internal/service/daily_claim.go:31-47 | the branch for an existing claim record |
| `DailyClaim.ClaimRunner.Perform` | internal/service/daily_claim.go:49-133 | a claim is sent only after the count and the started mark are durable; undisturbed the count before is the one shown first and the count after the one granted or shown last |
| `DailyClaim.ClaimRunner.Grant` | internal/service/daily_claim.go:100-132 | a granted claim is completed with the count the reply carries, or with the next one shown when it carries none |
| `DailyClaim.ClaimRunner.PreflightError` | internal/service/daily_claim.go:236-250 | a failure before the claim records a refusal that is not started |
| `DailyClaim.ClaimRunner.ReconcileDailyClaim` | internal/service/daily_claim.go:135-177 | completes exactly on a count above the recorded one, else unknown |
| `DailyClaim.ClaimRunner.ReconcileAfterPost` | internal/service/daily_claim.go:179-234 | after an unclear answer: a grown count proves the claim, anything else leaves it unknown |
| `DailyClaim.ClaimRunner.ClaimWithRecovery` | internal/service/runner.go:502-520 | one claim, repeated once after a 401 only |
| `KeyedLock.RunKeepsInv` | internal/state/store.go:1136-1164 | entries, counts and holders stay consistent in every interleaving |
| `KeyedLock.MutualExclusion` | internal/state/store.go:333-362 | one holder per key at a time, although entries are deleted and recreated |
| `KeyedLock.TableIsExact` | internal/state/store.go:1136-1164 | the table holds exactly the keys in use, no ticket points at a deleted entry, each count is the number of users |
| `KeyedLock.WaitersCanProceed` | internal/state/store.go:1136-1164 | while someone waits, the waiter can take the lock or its holder can free it |
| `LockTable.LockTable.Register` | internal/state/store.go:1136-1150 | joining over real entries is one step of the machine |
| `LockTable.LockTable.TryAcquire` | internal/state/store.go:1136-1152 | the entry's mutex is taken exactly when it is free |
| `LockTable.LockTable.Free` | internal/state/store.go:1152-1156 | freeing is one step of the machine |
| `LockTable.LockTable.Leave` | internal/state/store.go:1152-1164 | leaving counts out and deletes the key after its last user |
| `LockOrder.DeadlockIffTangled` | internal/service/auto_draw.go:243-252 | for any number of threads, a state where nobody can move is reachable exactly when the named schedules tangle |
| `LockOrder.UntangledNeverSticks` | internal/service/manual_draw.go:38-41 | without such names some thread can always go on |
| `LockOrder.ChainsClimb` | internal/auth/broker.go:120-121 | every untangled operation takes its locks in one global order |
| `LockOrder.SelfTangledSticks` | internal/service/auto_draw.go:243-252 | a run in which one executor blocks on its own plan lock |
| `LockOrder.CrossTangledSticks` | internal/service/auto_draw.go:243-252 | a run in which two executors block on each other |
| `Keys.JoinIsInjective` | internal/state/store.go:1128-1130 | a key determines its date, window and account even when the window holds colons |
| `Keys.CoordinatesReadBack` | internal/service/auto_draw.go:571-587 | reading the coordinates back works exactly for windows without a colon |
| `Keys.GeneratedIdIsLost` | internal/state/store.go:879-885 | generated schedule identifiers read back as blank |
| `Clock.SkipsExactlyAt23And7` | internal/service/auto_draw.go:527-535 | a postponement gives up exactly in the Beijing hours 23 and 7 |
| `PlanProtocol.RunKeepsInv` | internal/service/auto_draw.go:109-353 | keys, executor copies, times and claim uniqueness stay consistent over ticks, crashes and failed writes |
| `PlanProtocol.OneKeyPerPlan` | internal/service/auto_draw.go:321-325 | every draw ever sent for a plan carries its one key, and no two plans share one |
| `PlanProtocol.TerminalIsFinal` | internal/service/auto_draw.go:130-141 | an ended plan never changes, never runs and sends nothing again, whatever follows |
| `PlanProtocol.ClaimPlansAreUnique` | internal/service/auto_draw.go:153-192 | at most one claim plan for an account and date in every reachable state |
| `PlanProtocol.CreationIsNew` | internal/service/auto_draw.go:148-201 | a plan is created only under a key that never had one |
| `PlanProtocol.PruneSparesToday` | internal/state/store.go:701-752 | pruning never removes a plan of the current date |
| `PlanProtocol.PostponedAtMost22Times` | internal/service/auto_draw.go:527-550 | a plan whose attempts return on its own date is postponed at most 22 times: never in the hours 7 and 23 |
| `PlanProtocol.ReachableByRuns` | internal/service/auto_draw.go:75-105 | the states the scheduler object may be in are exactly the results of protocol runs |
| `PlanProtocol.CreateAll` | internal/service/auto_draw.go:195-199 | one write adding many plans is a sequence of protocol steps |
| `DayPlan.ScheduleTime` | internal/service/auto_draw.go:203-234 | today's instant is the full minute of the fixed start on the Beijing clock, still to come, or lies in the rest of the window within an hour of its start; none only when today's chance is over or the random source fails |
| `DayPlan.CollectMissing` | internal/service/auto_draw.go:153-194 | every enabled entry is planned, claimed by another entry, too late, or asked for now; at most one claim an account |
| `DayPlan.CollectEntry` | internal/service/auto_draw.go:168-192 | whether one entry needs a plan today, keeping one claim an account |
| `Scheduler.Scheduler.EnsureToday` | internal/service/auto_draw.go:148-201 | undisturbed, every enabled entry of every enabled account is served; new plans are pending and wanted, old ones untouched; nothing is written when nothing is missing |
| `Executors.DrawCall.DrawAvailable` | internal/service/manual_draw.go:26-95 | skipped exactly when the count shown leaves nothing to draw, else one request under the plan's key, repeated once exactly after a 401/403 or a transient answer when the way is clear; success exactly when the last answer drew |
| `Executors.ClaimFor` | internal/service/auto_draw.go:311-320 | the claim executor is one call of the daily claim on the account's own record; undisturbed it reports no error |
| `Scheduler.CompletedPlanIsClaimIff` | internal/service/auto_draw.go:359-413 | a claim plan completes exactly when the call returned; the claim is completed exactly when it was before, was granted, or an unclear one shows in the count |
| `Scheduler.RefusedClaimCompletesPlan` | internal/service/auto_draw.go:355-370 | a refused first claim ends with a failed record and a completed plan |
| `Scheduler.DrawPlanEnds` | internal/service/auto_draw.go:376-413 | a draw plan completes exactly when the platform drew, and is skipped exactly when nothing was left to draw or the account has to log in again |
| `Scheduler.CheckinPlanEnds` | internal/service/auto_draw.go:472-550 | a check-in plan completes exactly on an award and waits an hour exactly when it was not active enough outside the hours 7 and 23 |
| `Scheduler.Scheduler.RunClaim` | internal/service/auto_draw.go:311-318 | the claim goes to the record of the date the call starts on |
| `Scheduler.Scheduler.ExecutePlan` | internal/service/auto_draw.go:243-353 | only a plan that may fire is run, by the executor of its task, and only a claim touches claim records; undisturbed it ends by its executor's report with one log line; a shutdown leaves it running |
| `DayPlan.FindSchedule` | internal/service/auto_draw.go:275-283 | finds an entry exactly when an enabled one with the plan's window exists |
| `Scheduler.Scheduler.RunTask` | internal/service/auto_draw.go:301-353 | the executor of the task, and the end its report calls for |
| `Scheduler.Scheduler.EndTask` | internal/service/auto_draw.go:359-413 | status by report: reauthentication skips, other errors fail, a claim without error completes, a check-in may wait |
| `Scheduler.Scheduler.ExecuteDue` | internal/service/auto_draw.go:130-142 | every due plan of the snapshot is executed once, the others are untouched |
| `Scheduler.Scheduler.PlansOf` | internal/state/store.go:563-585 | the snapshot holds each plan of the date exactly once |
| `Scheduler.Scheduler.PostponeCheckin` | internal/service/auto_draw.go:525-550 | the plan waits an hour or is skipped, with the log line the key string allows |
| `Scheduler.Scheduler.Settle` | internal/service/auto_draw.go:334-353 | the terminal status, then one log line; a failed write of either is reported |
| `Scheduler.Scheduler.Tick` | internal/service/auto_draw.go:109-143 | undisturbed, no plan of the day is left due, every entry is served, and every plan that was due ended by a report its own executor made, or skipped when it must not fire; in any case at most two draws a plan, ended plans untouched |
| `Scheduler.Scheduler.Restart` | internal/service/auto_draw.go:43-45 | a restart keeps every plan and drops only what was being executed |
| `DayPlan.RequestsStandAlone` | internal/service/auto_draw.go:172-192 | the claims asked for in one pass leave one claim plan an account |
| `Accounts.NextPlace` | internal/state/accounts.go:219-236 | each code is followed by the next place, and only z9 has none |
| `Accounts.SamePlaceSameCode` | internal/state/accounts.go:219-236 | no two codes share a place |
| `Accounts.CodesHaveNoColon` | internal/state/accounts.go:219-236 | generated codes hold no colon |
| `Accounts.Registry.Seed` | internal/state/accounts.go:64-82 | the first watermark is the highest sequential code in use |
| `Accounts.Registry.NextID` | internal/state/accounts.go:61-82 | the next code lies beyond every code in use or ever given out |
| `Accounts.Registry.Create` | internal/state/accounts.go:94-130 | a new code was never given out before, deleted ones included; without a fault it fails only when the codes are exhausted |
| `Accounts.Registry.Delete` | internal/state/accounts.go:183-198 | deleting does not free the code |
| `Ledger.Track` | internal/auth/broker.go:363-400 | the session is seen now or appended, and a long ledger is stably sorted and bounded |
| `Ledger.TouchedIsListed` | internal/auth/broker.go:370-385 | afterwards the session has an entry seen now and other sessions keep theirs |
| `Ledger.InsertStably` | internal/auth/broker.go:388-391 | the sort orders by time and keeps the order among equals |
| `Ledger.StableSort` | internal/auth/broker.go:388-391 | the sorted list is in order and keeps the order of entries seen at one instant |
| `Ledger.Trim` | internal/auth/broker.go:392-398 | the compaction keeps the first entries and the pinned ones |
| `Ledger.KeptIsNewestAndPinned` | internal/auth/broker.go:386-399 | no pinned entry ages out, nothing dropped is newer than the 24 kept for their age, and whatever else is kept is pinned |
| `Sessions.Manager.Cleanup` | internal/auth/remote_sessions.go:424-498 | from the list the platform returned, for every map order, tie-break and failing revocation: the split of the pool, exactly the excess asked for in order, revoked and failed as answered, and the exact ledger left |
| `Sessions.CollectPool` | internal/auth/remote_sessions.go:454-466 | in any map order: the disposable sessions, and the ledger without those that are gone |
| `Sessions.Manager.RevokeEach` | internal/auth/remote_sessions.go:477-484 | each session is asked for once, in order, revoked or failed as answered, and the ledger loses exactly the revoked ones |
| `Sessions.BuildLedger` | internal/auth/remote_sessions.go:447-452 | the last owned entry of each session |
| `Sessions.LedgerHoldsOwned` | internal/auth/remote_sessions.go:447-452 | the ledger map holds exactly the owned sessions |
| `Sessions.TriedAreDisposable` | internal/auth/remote_sessions.go:454-475 | only live, owned, unpinned sessions other than the one in use are tried, each once, no spare among them |
| `Sessions.Manager.Classify` | internal/auth/remote_sessions.go:335-422 | the announced candidates are the pool beyond the newest limit by platform activity |
| `Sessions.Manager.Preview` | internal/auth/remote_sessions.go:321-422 | the total and the number of candidates of the list the platform just returned |
| `SessionAgreement.CountsAgreeUnlessUnflagged` | internal/auth/remote_sessions.go:335-475 | with distinct sessions, the number tried equals the number announced exactly unless the unflagged session in use is announced |
| `SessionAgreement.NamesTheSameIff` | internal/auth/remote_sessions.go:335-475 | the cleanup is sure to try exactly the announced sessions if and only if nothing is announced or one cut is strict by activity and by ledger time |
| `Ranking.OneChoiceIffCommonCut` | internal/auth/remote_sessions.go:467-475 | whatever the ties, two rankings choose the same newest sessions exactly when none is left out or one cut is strict in both |
| `SessionAgreement.PreviewNamesAnother` | internal/auth/remote_sessions.go:352-378 | two sessions for which the preview always announces the one the cleanup always spares |
| `Sessions.SortNewestFirst` | internal/auth/remote_sessions.go:467-469 | any order an unstable sort may give is sorted and a permutation |
| `Sessions.Compact` | internal/auth/remote_sessions.go:486-492 | compaction over the list's own array equals the specification filter |
| `Sessions.Manager.RevokeOne` | internal/auth/remote_sessions.go:528-564 | drops exactly the session's entries once the platform ended it, and reports the session in use |
| `Sessions.Manager.RevokeAllOthers` | internal/auth/remote_sessions.go:566-606 | keeps exactly what the list refreshed after the request shows, and the whole ledger when the refresh fails |
| `Sessions.CapacityGuard.BeforeLogin` | internal/auth/remote_sessions.go:222-251 | allows exactly when no total is known or the last one is below limit minus margin, and that total is what the platform then holds; between two previews lies a complete cleanup, and undisturbed it is not blocked without one |
| `Broker.Broker.Acquire` | internal/auth/broker.go:99-153 | a stored token is returned without a call exactly when it ends never or later than a minute from now, by the instants; else the ladder's call sequence, the stored session as the answer, the parent handed out last, room on the platform after a login, and why it failed |
| `Broker.Broker.Recover` | internal/auth/broker.go:136-152 | the ladder from the bundle loaded under the lock |
| `Broker.Broker.RenewParent` | internal/auth/broker.go:160-180 | at most one refresh and nothing else; the rejected or ending token is never returned without a refresh |
| `Broker.Broker.RenewLottery` | internal/auth/broker.go:182-210 | the ladder without a login; the new token is bridged for the stored parent and user |
| `Broker.Broker.ParentForBridge` | internal/auth/broker.go:199-205 | the stored parent when usable, else one from the ladder |
| `Broker.Broker.ParentSessionLocked` | internal/auth/broker.go:212-248 | the stored parent while it lasts, else validate, then refresh, or guard, then log in; the vault invariant on every path |
| `Broker.Broker.RefreshParent` | internal/auth/broker.go:250-265 | one refresh; success stores the user, token and end just handed out and drops the lottery token |
| `Broker.Broker.ExplicitLogin` | internal/auth/broker.go:267-296 | the login follows an approving guard, leaves at most limit minus margin sessions on the platform when the total was known, and what the guard cleaned out of the ledger stays out |
| `Broker.Broker.BridgeLottery` | internal/auth/broker.go:298-327 | a rejected bridge refreshes once and bridges once more; the stored token was issued for the stored parent and user |
| `Broker.Broker.PersistParentSession` | internal/auth/broker.go:329-341 | the whole bundle after a new parent session, durable or not at all |
| `Broker.Broker.PersistLottery` | internal/auth/broker.go:343-351 | the whole bundle after a new lottery session, durable or not at all |
| `Broker.CallBounds` | internal/auth/broker.go:214-327 | a broker call logs in at most once and only explicitly, validates at most once, refreshes and bridges at most twice |
| `BrokerRace.RecoveredOnce` | internal/auth/broker.go:102-153 | for any number of callers in any interleaving: one validation, one refresh, one bridge at most |
| `BrokerRace.SameTokenForAll` | internal/auth/broker.go:123-142 | every caller served with a parent session got the one refreshed token the vault holds |
| `BrokerRace.LotteryFromTheRefresh` | internal/auth/broker.go:144-152 | every lottery session is the left-over one or the one bridged from the refresh |
| `BrokerRace.RefreshedExactlyOnce` | internal/auth/broker.go:102-153 | once a recovery began and everyone is served, the refresh happened exactly once |
| `BrokerRace.SomeoneCanGoOn` | internal/auth/broker.go:120-121 | while a caller is not served, some caller can go on |
| `Money.ExactParsesBack` | internal/quota/policy.go:109-120 | the text of a non-negative amount is canonical and reads back as the nearest multiple of 10^-12, halves up |
| `Money.TrimKeepsWhole` | internal/quota/policy.go:113-115 | trimming zeros and point never loses a digit of the whole part |
| `Money.SameTextSameMultiple` | internal/quota/policy.go:109-120 | two amounts share their text exactly when they share their nearest multiple |
| `Money.NegativeDust` | internal/quota/policy.go:109-120 | a negative amount is written "-0" exactly when it is above minus half of 10^-12 |
| `Money.NativeIsRecovered` | internal/quota/policy.go:62-74 | up to 10^12 units a dollar, the stored value times the unit rounds back to the native amount |
| `Money.AmountIsLost` | internal/quota/policy.go:62-74 | above 10^12 units a dollar some native amount is stored as a text that leads back to another |
| `Money.AllRecoveredIff` | internal/quota/policy.go:62-74 | every native amount reads back if and only if a dollar has at most 10^12 units |
| `Money.TextsAgree` | internal/quota/policy.go:62-74 | the stored value and the displayed amount of one conversion differ by half a cent at most, up to the twelfth decimal |
| `Money.RemainderConserves` | internal/quota/policy.go:76-84 | used plus remainder is the total, and the clamp is reported exactly when used exceeds it |
| `Money.DisplayReads` | internal/quota/money.go:162-195 | the displayed text reads back as the rounded amount with its sign |
| `Money.DisplayIsSymmetric` | internal/quota/money.go:162-195 | a negative amount displays as the minus sign and its opposite |
| `Money.DisplayIsClose` | internal/quota/money.go:162-195 | half-up cents from half a cent on, within half of 10^-12 below |
| `Money.DisplayIsMonotone` | internal/quota/money.go:162-195 | a larger amount never displays as a smaller one, also across half a cent |
| `Money.OnlyZeroShowsNoCents` | internal/quota/money.go:162-195 | "$0.00" is shown exactly for zero |
| `Money.BareZeroIsDust` | internal/quota/money.go:169-181 | a bare "$0" is shown exactly for non-zero amounts below half of 10^-12 |

## Left out

- HTTP, JSON, cookies and user agents: the platform is a nondeterministic source of the answers the code distinguishes.
- Encryption, file modes, temporary files and locks on files: a state write or a vault save is one atomic step that succeeds or fails.
- Web handlers, pages, bootstrap and account editing: plumbing around the modelled calls, and the account edit writes the bundle outside the auth lock.
- Check-in calls: they take no action lock and the web layer writes the same record; in the plan scheduler a check-in is one nondeterministic report.
- PaidRunner.Runner.PurchaseDraw: the wall-clock shortcut for a duplicate call is a nondeterministic early replay, calls lie within one day, and the dashboard is assumed to report the purchased count (a missing field reads as 0 in the code).
- PaidProtocol.ChargesAreCompletions: assumes a platform that charges a key at most once, never after refusing it, and raises its purchase counters only by charging.
- PaidProtocol.PassIsPaidAtMostOnce: a record found already unlocked completes although its own key may still be open, so charges and completions are not equated for the pass.
- Prices, messages, prize texts and activity reports; with them the refusal of a finish or a log whose text is too long or holds a credential.
- State.Store.SetDrawSchedules: trimming, clock parsing, identifier generation and sorting of the entries, and the check that the account exists; the list is taken in its normal form.
- State.Store.PruneAutoDrawData: the blank-argument checks; dates and instants are numbers here.
- Idempotency keys are drawn from a counter: that 128-bit random values do not repeat is assumed.
- Version-3 files and their migration, snapshots, auth state and auth health.
- Scheduler.Scheduler.ExecutePlan: account removal between ticks is not a step of the plan protocol, the check-in executor is a nondeterministic report, claims made through the web pages in between are not steps of the scheduler, and missing executors are not modelled.
- Scheduler.Scheduler.Tick: plans of the day come in any order; the ticker and the operation timeout are not modelled.
- LockOrder.DeadlockIffTangled: the chains list which locks an operation nests, not what it does under them; identifiers other than the two action kinds with automatic tasks cannot collide with a lock asked for later.
- Accounts created with an explicit identifier: they overwrite the watermark, so only generated codes are modelled; statuses, labels and remote users are left out.
- Broker.Broker.ExplicitLogin: assumes that no other device logs in between the guard's last listing and the login; the guard's other requests change the platform's list only by what they revoke.
- Broker.Broker.BridgeLottery: assumes a platform that issues a lottery token for the parent and user it was asked for.
- Broker.Broker.Acquire: one account; a single unusable-vault-read error covers every load failure, session expiry is an instant or absent, and the session identifier inside a token is an uninterpreted function.
- BrokerRace.RecoveredOnce: background requests only, under the situation named at the head of the file; renewals of rejected tokens are sequential in `Broker`.
- Sessions.Manager.Classify: device texts, verdict labels and the reasons shown with a candidate; the policy type that ranks the ledger without a platform list; the cached preview of the guard.
- Money: parsing of platform input and floating-point conversion; the amounts start as exact values.
