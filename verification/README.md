# Verification model of the Yault server's stateful protocols and exact algorithms

The server keeps spending budgets for agents, a release registry on permanent storage, a delivery log,
approvals, cooldowns, allowances with vault shares, and bindings to authorities. This project restates the
parts of it that carry state across requests, or compute something exact, and proves what they are for.

What each module is about:

- `PromiseLock`: the two promise-chain locks. Mutual exclusion and first come, first served are derived
  from the shape of the chain; nothing assumes them.
- `SpendingPolicy`: check-and-reserve over three rolling windows, as the segments between awaits,
  interleaved with any other request, unlocked rollbacks and a clock that never runs backwards. A table
  is the sequence of its rows.
- `ReleaseStorage`: the copy-on-write registry, its three cache tiers, lookups with legacy fallbacks, and
  payload replacement.
- `Delivery`: deduplication in flight, the delivery record, retries and the scheduler's reset.
- `Backfill`: the seven-step migration, and the key recomputation it has to agree with.
- `Calendar`, `Allowances`: recurring schedules in UTC, vault share moves, and withdrawal limits.
- `Multisig`: M-of-N approval over whole histories of requests.
- `Cooldown`: pause, resume, and resets of blocked triggers.
- `KeyRotation`: the rotation saga with a failure at any operation.
- `Bindings`: binding counts and capacity.
- `Base58`, `Radix`, `Decimal`, `SessionToken`, `Utxo`: the exact algorithms.
- `Text`, `Tables`, `Wrappers`: strings, key listings, Option and Result.

Code that changes state is a class whose methods are proved equal to a step of a state machine; the
properties are lemmas about runs of that machine. "Segment" means the code between two awaits. Where a
whole handler is one step, the module says so: these handlers read and later write without a lock.

Conventions: amounts are natural or real numbers; SHA-256 and HMAC are free constructors or parameters;
a database collection is a map (or a sequence of rows) whose operations succeed unless a property says
otherwise; random ids are parameters that are not yet taken.

Five promises the code does not keep, each with its exact condition and a concrete run:

- A delivered record can be overwritten by the scheduler's reset of a failed record it read earlier, and a
  second delivery can then be acknowledged (`Delivery.AtMostOnceDelivery`, `Delivery.DeliveredIsAbsorbing`,
  `Delivery.StaleResetDeliversTwice`).
- A registry update that cannot read the current document starts from an empty one and drops every other
  entry (`ReleaseStorage.NothingLostIff`, `ReleaseStorage.BlindPutErases`).
- Key rotation reports but does not move bindings made by the binding API, since those are not stored under
  the key it recomputes; and it does not undo its work if listing the bindings fails
  (`KeyRotation.SuccessMovesAllIff`, `KeyRotation.CreatedBindingsNeverMove`, `KeyRotation.FailureRestoresIff`,
  `KeyRotation.FailureReplacesBinding`).
- The migration can replace the record of a finished delivery by an older one without a plan, and it is
  idempotent only if there is a plan or nothing needs one (`Backfill.PlanScopedRowSurvivesIff`,
  `Backfill.DeliveredRowIsOverwritten`, `Backfill.SecondRunChangesNothing`).
- A withdrawal window holds only up to the time between a request's stamp and its limit check
  (`Allowances.WindowSafeIff`, `Allowances.LagLetsWindowOverflow`).

Smaller ones: a monthly advance from the 29th to 31st may skip a month (`Calendar.DateAfterAdvance`); a
vault redemption is counted twice against the limit (`Allowances.RedemptionCountsTwice`); deleting a binding
that was replaced elsewhere takes one off a count it no longer belongs to (`Bindings.DeletingReplacedUndercounts`);
a delivery under way while its record is reset writes the old count of attempts back, plus one
(`Delivery.AttemptsAreCounted`); and a refusal that may be retried makes a record pending again after one that may
not (`Delivery.RefusedInARow`).

## Model

| member | source | states |
|---|---|---|
| PromiseLock.PrevResolved | server/services/spendingPolicyService.js:24-30 | in either lock shape a caller's `prev` is resolved exactly when every earlier caller has released |
| PromiseLock.MutualExclusion | server/services/spendingPolicyService.js:222-244 | in every run, of either lock shape, at most one caller is between its grant and its release |
| PromiseLock.FirstComeFirstServed | server/services/arweaveReleaseStorage.js:447-453 | a granted caller's predecessors have all been granted and have released |
| PromiseLock.Progress | server/services/spendingPolicyService.js:24-30 | each enabled grant or release pays off exactly one unit of what is owed, so a run without new callers ends |
| PromiseLock.NoDeadlock | server/services/arweaveReleaseStorage.js:448-453 | while anything is owed, some grant or release is possible |
| PromiseLock.Drains | server/services/spendingPolicyService.js:242-244 | if every holder releases, the queue empties in exactly the number of owed steps |
| PromiseLock.Uncontended | server/services/spendingPolicyService.js:222-244 | a caller at a free lock is granted at once and its release leaves the lock free |
| PromiseLock.Mutex.constructor | server/services/arweaveReleaseStorage.js:447 | a new lock is the resolved promise with no callers |
| PromiseLock.Mutex.AcquireLock | server/services/spendingPolicyService.js:24-30 | reads the tail, adds a deferred promise, installs the new tail of its shape and takes the next ticket |
| PromiseLock.Mutex.TryGrant | server/services/arweaveReleaseStorage.js:452 | the continuation runs exactly when `prev` is resolved and it has not run before |
| PromiseLock.Mutex.ReleaseLock | server/services/spendingPolicyService.js:27-29 | resolves the holder's deferred promise and nothing else |
| SpendingPolicy.GetBudgetUsage | server/services/spendingPolicyService.js:175-197 | one pass gives the three window totals at the time read, with ages inclusive at the window's edge |
| SpendingPolicy.CheckPolicy | server/services/spendingPolicyService.js:71-140 | allows exactly when the operation is permitted, some listed address has the destination's digits, and amount, transaction limit and all three windows permit; otherwise names the first thing wrong |
| Text.AddressesAgree | server/services/spendingPolicyService.js:85-88 | two addresses match exactly when, each after its own 0x if it has one, they have as many characters and the same ones but for the case of letters |
| SpendingPolicy.VerdictsAreHonest | server/services/spendingPolicyService.js:49-140 | over any run every verdict is true: allowed only an acceptable request under its key's policy, denied for the reason given |
| SpendingPolicy.RowsComeFromRequests | server/services/spendingPolicyService.js:227-239 | over any run every row is the entry of a request that was allowed, with the key, policy, operation, amount and destination it asked for |
| SpendingPolicy.EntryIsStampedNow | server/services/spendingPolicyService.js:227-239 | an entry is stamped with the clock as it is when the entry is built |
| SpendingPolicy.SlidingWindowSafety | server/services/spendingPolicyService.js:213-246 | over every interleaving with unlocked rollbacks, the surviving entries of a policy stamped in any closed interval of 24 h, 7 d or 30 d sum to at most its limit, although usage is read at an earlier clock value than the one stamped |
| SpendingPolicy.OneInsidePerPolicy | server/services/spendingPolicyService.js:222-244 | no two requests of one policy are between grant and release together |
| SpendingPolicy.AloneReserves | server/services/spendingPolicyService.js:213-246 | an uninterrupted request is allowed exactly when its policy permits it against the ledger as it stands, adds exactly its own row, and leaves the lock free |
| SpendingPolicy.RollbackUndoesReservation | server/middleware/agentPolicy.js:52-88 | a reservation followed by its rollback leaves the ledger exactly as it was |
| SpendingPolicy.RemoveLowersSums | server/services/spendingPolicyService.js:252-258 | a rollback never raises any window's total, so it needs no lock |
| SpendingPolicy.RemoveTakesOnly | server/services/spendingPolicyService.js:252-258 | a rollback takes the rows of its id and no other |
| SpendingPolicy.OfPolicySums | server/services/spendingPolicyService.js:176-190 | summing the policy's own rows gives the total over the whole ledger |
| SpendingPolicy.Service.CheckAndReserve | server/services/spendingPolicyService.js:213-222 | looks the key up and joins the policy's lock; an unknown or unbound key is denied without one |
| SpendingPolicy.Service.LockGranted | server/services/spendingPolicyService.js:222-223 | the request goes on exactly when its turn has come |
| SpendingPolicy.Service.FetchEntries | server/services/spendingPolicyService.js:65-112 | runs the checks before the budget in order and reads the policy's rows, in row order |
| SpendingPolicy.Service.TallyUsage | server/services/spendingPolicyService.js:177-197 | totals the rows read at the clock value now |
| SpendingPolicy.Service.DecideRequest | server/services/spendingPolicyService.js:114-140 | compares the totals with the three limits |
| SpendingPolicy.Service.StampEntry | server/services/spendingPolicyService.js:227-239 | builds the entry with the clock value now, which may be later than the one usage was read at |
| SpendingPolicy.Service.WriteEntry | server/services/spendingPolicyService.js:230-241 | inserts or replaces exactly that row |
| SpendingPolicy.Service.ReleaseLock | server/services/spendingPolicyService.js:242-244 | the `finally` block releases on every path |
| SpendingPolicy.Service.RollbackReservation | server/services/spendingPolicyService.js:252-258 | deletes exactly the row of that id, at any time, without the lock |
| SpendingPolicy.AgentRequest.constructor | server/middleware/agentPolicy.js:68-76 | the request keeps the id of its reservation, if it was allowed |
| SpendingPolicy.AgentRequest.Finished | server/middleware/agentPolicy.js:82-88 | a failed response rolls the reservation back, once; any other leaves the ledger alone |
| ReleaseStorage.RegistryIsFoldOfPuts | server/services/arweaveReleaseStorage.js:483-502 | in every interleaving the registry is the fold of the saved puts in lock order, each applied to what those before it left or, if it could not read that, to nothing; a task reports an id exactly when its put is among them |
| ReleaseStorage.NothingLostIff | server/services/arweaveReleaseStorage.js:486-499 | over any run no put and no initial entry is lost exactly when every put that could not read the registry was, or was followed by, a put of each key that had a value; the same for one key alone |
| ReleaseStorage.ReaderSeesTheRegistryItLocated | server/services/arweaveReleaseStorage.js:512-518 | a reader that learned the id gets, at any later time, exactly the document current when it learned it |
| ReleaseStorage.ReaderFindsLatestPut | server/services/arweaveReleaseStorage.js:512-521 | a reader that learns the id at any point of any run and fetches at any later point finds the put of its wallet, authority and plan that was the latest when it learned the id, unless one that could not read the registry came after |
| ReleaseStorage.LatestPutIff | server/services/arweaveReleaseStorage.js:483-502 | the latest put of a key is the last one, followed only by puts of other keys that could read the registry |
| ReleaseStorage.FallbackOnlyWhenScopedAbsent | server/services/arweaveReleaseStorage.js:519-536 | a legacy or empty-plan entry shows through only when the scoped key has no value |
| ReleaseStorage.KeysAreScoped | server/services/arweaveReleaseStorage.js:191-210 | registry keys agree exactly when the normalised triples do, and never with a legacy key |
| Text.TrimCuts | server/services/arweaveReleaseStorage.js:191-198 | trimming takes white space off both ends and leaves none there |
| Text.TrimOf | server/services/arweaveReleaseStorage.js:191-198 | and only that: what has no white space at its ends is recovered from between any |
| Text.BlankIff | server/services/arweaveReleaseStorage.js:191-198 | the white space is that of sections 12.2 and 12.3 of ECMA-262 |
| Text.LowersAgree | server/services/arweaveReleaseStorage.js:191-198 | lower-cased texts agree exactly when they have the same characters but for the case of letters |
| ReleaseStorage.ManifestKeysAreScoped | server/services/arweaveReleaseStorage.js:161-169 | manifest keys agree exactly when wallet, authority, recipient and plan do |
| ReleaseStorage.FetchReturnsUpload | server/services/arweaveReleaseStorage.js:294-349 | whichever tier answers, the answer is exactly what was uploaded under that id |
| ReleaseStorage.FreshUploadIsReadable | server/services/arweaveReleaseStorage.js:236-242 | an upload is readable without any gateway for ten minutes, and after that from disk |
| ReleaseStorage.StaleUploadIsNot | server/services/arweaveReleaseStorage.js:300-306 | and, without disk or gateway, not after those ten minutes |
| ReleaseStorage.DiskReadRefillsMemory | server/services/arweaveReleaseStorage.js:307-314 | a read answered from disk is in memory again for ten minutes |
| ReleaseStorage.EmptyFileIsNoAnswer | server/services/arweaveReleaseStorage.js:308-309 | an empty file on disk is no answer |
| ReleaseStorage.ManifestIsReadLocally | server/services/arweaveReleaseStorage.js:405-413 | a manifest is read from memory at any age or from disk, touching nothing, and fetched otherwise |
| ReleaseStorage.RecordedIdWins | server/services/arweaveReleaseStorage.js:456-464 | the recorded id names the registry, or without one the configured id |
| ReleaseStorage.UploadOutcome | server/services/arweaveReleaseStorage.js:483-502 | a refused upload changes nothing and ends the put; an accepted one stores the extended document, on disk too if that works |
| ReleaseStorage.BlindPutErases | server/services/arweaveReleaseStorage.js:486-499 | a run in which an unreadable document makes a put erase the other entry |
| ReleaseStorage.ReplacementKeepsOthersIff | server/services/arweaveReleaseStorage.js:405-439 | the other recipients survive a replacement exactly when the old manifest was readable or held none |
| ReleaseStorage.EachRecipientKeepsItsPayload | server/services/arweaveReleaseStorage.js:401-440 | after any run of replacements that could read their manifests, whatever else happens to the store, each recipient's entry is the last payload sent to it, and others are unchanged |
| ReleaseStorage.ArweaveStorage.FetchFromArweave | server/services/arweaveReleaseStorage.js:294-349 | memory, then disk (filling memory), then a gateway; the tiers stay truthful |
| ReleaseStorage.ArweaveStorage.UploadToArweave | server/services/arweaveReleaseStorage.js:219-248 | an accepted upload is stored and cached under its id; a refused one changes nothing |
| ReleaseStorage.ArweaveStorage.UpdateRegistryAndSave | server/services/arweaveReleaseStorage.js:483-502 | every other entry is kept exactly when the old document could be read or held nothing else; a refused upload changes nothing |
| ReleaseStorage.ArweaveStorage.GetManifestTxIdFromRegistry | server/services/arweaveReleaseStorage.js:512-540 | the scoped, then legacy, then empty-plan entry of a readable registry, and nothing otherwise |
| ReleaseStorage.ArweaveStorage.ReadManifest | server/services/arweaveReleaseStorage.js:405-413 | the local copies at any age before a fetch |
| ReleaseStorage.ArweaveStorage.ReplacePathPayload | server/services/arweaveReleaseStorage.js:401-440 | the new manifest is the old one with that recipient's entry replaced; it fails exactly when the manifest is damaged or an upload is refused, and says what was uploaded in each case |
| Delivery.OnePostInFlight | server/services/deliverRwaRelease.js:81-104 | at most one mint request is out at any time |
| Delivery.AtMostOnceDelivery | server/services/deliverRwaRelease.js:71-121 | over any run the acknowledged requests number exactly the resets of a delivered record, plus one if the record is delivered or such an answer is about to be recorded; so at most one is acknowledged exactly when there was no such reset, or one not yet followed by a delivery |
| Delivery.DeliveredIsAbsorbing | server/services/scheduler.js:226-244 | a delivered record outlives every step exactly when it is not a scheduler reset decided on an older reading |
| Delivery.StaleResetDeliversTwice | server/services/scheduler.js:226-244 | a run in which such a reset leads to a second acknowledged delivery |
| Delivery.PendingHasAttemptsLeft | server/services/deliverRwaRelease.js:292-305 | a pending record has fewer than 5 attempts, so the retry loop's "mark failed" branch never fires |
| Delivery.AttemptsAreCounted | server/services/deliverRwaRelease.js:43-44 | over any run the attempts on record are those at the start, or none since the last reset, plus one per record written since, exactly so unless a record read before that reset was built on |
| Delivery.RefusalLeavesPendingIff | server/services/deliverRwaRelease.js:45-53 | a refusal leaves the record pending exactly when it may be retried and fewer than five are counted, and failed otherwise |
| Delivery.RefusedInARow | server/services/deliverRwaRelease.js:43-53 | refused n times in a row from an empty record it has n attempts and is pending exactly when n is below five and the last refusal may be retried |
| Delivery.AcknowledgedIdIsRecorded | server/services/deliverRwaRelease.js:51-56 | an acknowledged answer is recorded as delivered with the id it carries, or else the one on record |
| Delivery.RefusalKeepsId | server/services/deliverRwaRelease.js:54-55 | a refusal keeps the id on record and its own kind of error |
| Delivery.DeliveredStays | server/services/deliverRwaRelease.js:112-116 | a delivered record stays as it is over any run without a stale reset |
| Delivery.DeliveredIsTold | server/services/deliverRwaRelease.js:112-116 | and who asks meanwhile is told its id, without a request |
| Delivery.ResetStartsOver | server/services/scheduler.js:230-243 | a reset writes the failed record it read back as pending with no attempts, if it had five and an error of the kind that is reset |
| Delivery.DeliveryAlone | server/services/deliverRwaRelease.js:71-104 | alone and on an undelivered record, a delivery goes through, is recorded once and frees the slot |
| Delivery.Deliverer.DeliverRwaPackage | server/services/deliverRwaRelease.js:81-96 | joins the delivery in flight, or becomes it |
| Delivery.Deliverer.AwaitOther | server/services/deliverRwaRelease.js:82-90 | returns what the other caller's promise resolves to |
| Delivery.Deliverer.CheckLog | server/services/deliverRwaRelease.js:112-116 | a delivered record ends the delivery with its transaction id |
| Delivery.Deliverer.PreparePackage | server/services/deliverRwaRelease.js:122-202 | the request goes out, or the delivery fails first |
| Delivery.Deliverer.ReceiveReply | server/services/deliverRwaRelease.js:204-259 | takes the mint service's answer |
| Delivery.Deliverer.FindExisting | server/services/deliverRwaRelease.js:39-43 | looks the existing record up |
| Delivery.Deliverer.RecordDelivery | server/services/deliverRwaRelease.js:44-61 | writes the next record: one more attempt, the status that follows from it, the transaction id kept |
| Delivery.Deliverer.Settle | server/services/deliverRwaRelease.js:97-104 | forgets the promise if it is still this caller's |
| Delivery.Deliverer.ReadForReset | server/services/scheduler.js:226 | the tick's reading of the record |
| Delivery.Deliverer.ResetFailed | server/services/scheduler.js:230-244 | writes the record read back as pending with no attempts, whatever is there now |
| Delivery.Deliverer.MarkExhausted | server/services/deliverRwaRelease.js:297-305 | marks a pending record without attempts left as failed |
| Backfill.SecondRunChangesNothing | scripts/backfill-plan-id.js:14 | a second run changes nothing, whatever the row orders, exactly when there is a plan or nothing was left without one |
| Backfill.WithoutPlanKeysGrow | scripts/backfill-plan-id.js:128-131 | without a plan every run moves an index row again, its key growing |
| Backfill.KeysAgree | scripts/backfill-plan-id.js:118-179 | if rows without a plan are stored under their legacy keys and none is in another's way, then in any row order each kept one ends under exactly the key recomputed from its fields and the current plan, rows with a plan stay where they are unless one is moved there, and nothing else is left |
| Backfill.KeptIff | scripts/backfill-plan-id.js:157-172 | a log row is kept exactly when the current plan has its recipient, an index row always |
| Backfill.LogKeysAgreeIff | server/services/deliverRwaRelease.js:31-34 | delivery keys agree exactly when wallet, authority, recipient and plan do, where the parts hold no separator |
| Backfill.RunAgreesWithKeys | scripts/backfill-plan-id.js:24-206 | with at least one plan a whole run does so to both indexes and the delivery log |
| Backfill.RunThenDelete | server/db-sqlite.js:607-617 | after such a run, deleting a wallet's plan by recomputed keys removes exactly that wallet and plan's rows from either index |
| Backfill.DeletesExactly | server/db-sqlite.js:634-644 | deleting by recomputed keys removes exactly the rows of that wallet and plan whenever those are stored under them |
| Backfill.WellKeyedStays | scripts/backfill-plan-id.js:118-179 | a table all of whose rows were under their recomputed keys is so afterwards |
| Backfill.KeysNeverInTheWay | scripts/backfill-plan-id.js:118-179 | where the parts of legacy keys hold no separator, no row without a plan is stored where another will go |
| Backfill.PairSurvivesIff | scripts/backfill-plan-id.js:118-152 | a pair of address or hash and wallet is indexed afterwards exactly when some row that holds it has no plan or is not moved onto |
| Backfill.PairsSurvive | scripts/backfill-plan-id.js:118-152 | so where the parts of keys hold no separator an index has the same pairs before and after |
| Backfill.PathsFollowTheirWallet | scripts/backfill-plan-id.js:92-116 | every wallet with a path without a plan ends with one under the hash of wallet and plan |
| Backfill.LastPathStays | scripts/backfill-plan-id.js:92-116 | where no such path is stored under a plan's hash, that one is the last listed of the wallet's, and a wallet without one keeps what it had there |
| Backfill.PlanScopedRowSurvivesIff | scripts/backfill-plan-id.js:154-179 | a row that had a plan keeps its contents exactly when no different row is moved onto its key |
| Backfill.DeliveredRowIsOverwritten | scripts/backfill-plan-id.js:173-177 | two delivery records for which step 6 leaves the pending one |
| Backfill.PatchedTable | scripts/backfill-plan-id.js:66-89 | records stored under their own id keep key and contents but for a missing plan id |
| Backfill.LatestWhere | scripts/backfill-plan-id.js:51-62 | the chosen plan is wanted and none wanted is newer; none is chosen only if none is wanted |
| Backfill.CurrentIsNewest | scripts/backfill-plan-id.js:51-62 | the current plan is the newest, the first listed among equals |
| Backfill.AssignedPlan | scripts/backfill-plan-id.js:76-84 | a record gets the id of that plan; one not active, or for a recipient that plan does not have, of the newest plan of its size if there is one |
| Backfill.PlansGetIds | scripts/backfill-plan-id.js:32-46 | a plan keeps its id or gets 32 characters of its key's hash, and everything else |
| Backfill.RunCounts | scripts/backfill-plan-id.js:24-208 | with a plan a run counts everything that had none, once |
| Backfill.RowTable.RekeyRow | scripts/backfill-plan-id.js:94-116 | one row is skipped, deleted, or moved with the current plan, and counted |
| Backfill.RowTable.Rekey | scripts/backfill-plan-id.js:92-179 | the loop over an id snapshot, with its count of changes, is the fold of one-row moves in the order listed |
| Backfill.RowTable.DeleteByWalletPlan | server/db-sqlite.js:607-617 | deletes the key recomputed from each listed row of that wallet and plan, and so exactly those rows when they are stored there |
| Backfill.Database.BackfillPlans | scripts/backfill-plan-id.js:28-46 | every plan without an id gets 32 characters of its key's hash, and each is counted once |
| Backfill.Database.Patch | scripts/backfill-plan-id.js:66-89 | the loop over a snapshot of records is the fold of one-record updates |
| Backfill.Database.Backfill | scripts/backfill-plan-id.js:24-217 | the seven steps in order, with the total of changes |
| Calendar.MonthlyAdvance | server/services/scheduler.js:43-50 | a monthly advance is exactly the length of the current month, 28 to 31 days |
| Calendar.DateAfterAdvance | server/services/scheduler.js:43-50 | it keeps the date if the next month has it, and otherwise lands in the month after |
| Calendar.DayOfDate | server/services/scheduler.js:45-47 | splitting a day into year, month and date inverts MakeDay on every real date |
| Calendar.DateOfDay | server/services/scheduler.js:45-47 | and MakeDay inverts the split on every day |
| Calendar.KnownDays | server/services/scheduler.js:45-47 | the split gives the dates of the epoch, of a leap day, and around the century the leap rule leaves out |
| Calendar.AdvanceByAtLeast | server/services/scheduler.js:43-50 | n advances take exactly n steps for daily and weekly, and between 28 and 31 days each for monthly |
| Allowances.DebitKeepsRatio | server/services/scheduler.js:104-112 | a debit leaves the sender's shares per deposit unchanged while a deposit remains, and empties both together |
| Allowances.TransferConserves | server/api/accounts/allowances.js:76-96 | a transfer keeps both totals and no position goes negative, even when sender and receiver coincide; with two wallets the sender gives exactly the amount |
| Allowances.RunConserves | server/services/scheduler.js:72-156 | over any run of one-time and recurring allowances total deposits and shares are conserved |
| Allowances.DepositsFollowRecords | server/api/accounts/allowances.js:76-105 | over any run each wallet's deposit is what it was plus the completed amounts the run's records send it, less those they take from it |
| Allowances.RecordsAreAdded | server/services/scheduler.js:100-141 | each record a run adds comes from one of its requests or executions, holds what that asked for, and is completed exactly when the sender's deposit just before covered it |
| Allowances.AcceptedIff | server/services/withdrawalLimits.js:98-120 | a request is accepted exactly when its amount is positive, its recipient an active member, and the recipient's least limit has room for it in its period |
| Allowances.RequestsGoAheadIff | server/api/accounts/allowances.js:25-105 | accepted requests leave a record or are scheduled, others change nothing |
| Allowances.ExecutesIff | server/services/scheduler.js:64-94 | an execution goes ahead exactly when its allowance is due, not cancelled, not past its end and accepted |
| Allowances.CancelledNeverExecutes | server/services/scheduler.js:64-70 | a cancelled allowance stays as it is and is never executed again |
| Allowances.CancelledOnlyBySender | server/api/accounts/allowances.js:146-157 | it is cancelled by its sender's request and by nothing else |
| Allowances.AllowancesAreAsAsked | server/models/schemas.js:594-611 | over any run every allowance has the terms and the start some request asked for |
| Allowances.RunKeepsSchedule | server/services/scheduler.js:60-156 | after any run `next_execution` is its start advanced once per execution record, and the k-th record is never early nor at or past the end date |
| Allowances.RunExecutionsByTime | server/services/scheduler.js:56-156 | over any run from nothing scheduled, an allowance's execution records by time T number at most floor((T - start) / step) + 1, and none before the start |
| Allowances.WithdrawalWindow | server/services/withdrawalLimits.js:68-120 | from an empty history, what a member receives in any interval as long as its period, less the largest lag between stamp and check, stays within its limit |
| Allowances.WindowSafeIff | server/services/withdrawalLimits.js:68-120 | for every positive limit, period, lag and length: intervals of that length stay within the limit over all runs exactly when the length is at most the period less the lag; those of the whole period exactly when no check comes later than its stamp |
| Allowances.LagLetsWindowOverflow | server/services/withdrawalLimits.js:68-87 | for every positive limit, period and lag a run that pays twice the limit within the first longer interval |
| Allowances.LeastLimit | server/services/withdrawalLimits.js:41-54 | the selected limit is the least, and the first such, over active memberships that set one |
| Allowances.GetMemberLimits | server/services/withdrawalLimits.js:32-57 | the loop selects that limit with its period, and none exactly when no active membership sets one |
| Allowances.GetPeriodUsage | server/services/withdrawalLimits.js:68-87 | completed receipts plus redemptions since the period's start |
| Allowances.UsageIsWindow | server/services/withdrawalLimits.js:68-87 | usage is what was received and redeemed in the last day, week or thirty days |
| Allowances.CheckLimit | server/services/withdrawalLimits.js:98-120 | allows exactly non-members, members without a limit, and amounts that fit what is left of it |
| Allowances.RedemptionCountsTwice | server/services/withdrawalLimits.js:72-84 | a vault redemption adds twice its amount to its wallet's usage |
| Allowances.Accounts.PayFromVault | server/services/scheduler.js:100-141 | moves the shares if the deposit suffices and leaves a completed or pending record |
| Allowances.Accounts.PostOneTime | server/api/accounts/allowances.js:25-105 | an accepted one-time allowance is paid and recorded; a refused one changes nothing |
| Allowances.Accounts.PostRecurring | server/models/schemas.js:594-611 | an accepted recurring allowance starts at the time asked for, or now |
| Allowances.Accounts.PutCancel | server/api/accounts/allowances.js:137-157 | only its sender cancels an allowance, once |
| Allowances.Accounts.ExecuteDue | server/services/scheduler.js:72-156 | a due allowance of an active member within its limit is paid, recorded and advanced; otherwise nothing changes |
| Allowances.Accounts.ProcessDueAllowances | server/services/scheduler.js:56-182 | a tick runs exactly the allowances due when it began, in the order listed, each once |
| Allowances.TickAttemptsIff | server/services/scheduler.js:60-72 | a tick attempts every listed allowance that is due, not cancelled and not past its end, once, and no other |
| Multisig.RunsAreApproved | server/middleware/multisig.js:178-330 | in any history every run of a protected handler has its creator's action, body and route parameters, is no later than the record's expiry, and follows requests for that action on that record by at least the required number of distinct addresses; no record runs twice |
| Multisig.NextSignerRunsIff | server/middleware/multisig.js:275-315 | a further distinct signer in time runs the handler, as created, exactly when that makes up the number, and is recorded either way |
| Multisig.SecondSignerRuns | server/middleware/multisig.js:28-61 | without a configured count a record runs, as created, at its second distinct signer |
| Multisig.UnconfiguredNeverRunsAlone | server/middleware/multisig.js:178-242 | without a configured count no creating request runs the handler |
| Multisig.ConfiguredOneRunsAtOnce | server/middleware/multisig.js:222-230 | a creating request runs the handler, as asked, exactly when the configured count is one or less |
| Multisig.ClosedRecordsStay | server/middleware/multisig.js:251-256 | an approved, rejected or expired record is changed by no request, prune or rejection |
| Multisig.ClosedForever | server/middleware/multisig.js:109-129 | so such a record is the same after any further history |
| Multisig.PruneClosesOverdue | server/middleware/multisig.js:112-124 | a prune expires the pending records past their deadline and touches no other |
| Multisig.RejectClosesPending | server/middleware/multisig.js:375-385 | a rejection closes its pending record and nothing else |
| Multisig.TermsStay | server/middleware/multisig.js:183-204 | what was asked never changes; signatures are only added |
| Multisig.InvAlways | server/middleware/multisig.js:178-330 | every record in any history was created as asked, signed only by those who asked, and approved exactly when complete |
| Multisig.Approvals.constructor | server/middleware/multisig.js:178 | there are no records at first |
| Multisig.Approvals.RequireMultisig | server/middleware/multisig.js:178-330 | each branch of the middleware, with the record it leaves and what it hands to the handler |
| Multisig.Approvals.PruneExpired | server/middleware/multisig.js:109-129 | exactly the pending records past their expiry become expired |
| Multisig.Approvals.RejectApproval | server/middleware/multisig.js:375-385 | only a pending record can be rejected |
| KeyRotation.FailureRestoresIff | server/api/authority/register.js:129-177 | after a failure at any operation the store is exactly as before, if and only if it was not the listing and, for each stored key, the last binding moved that recomputes to it is its own |
| KeyRotation.OwnKeyOrAbsentRestores | server/api/authority/register.js:157-177 | so it is restored when each binding's recomputed key is its own store key or absent |
| KeyRotation.FailureReplacesBinding | server/api/authority/register.js:160-171 | a store and a failure between two bindings of one wallet after which one has replaced the other |
| KeyRotation.SuccessMovesAllIff | server/api/authority/register.js:145-166 | success applies both authority updates, and moves every binding and no other exactly when each is stored under its recomputed key |
| KeyRotation.AuthoritiesAfter | server/api/authority/register.js:131-150 | the new record carries the new key, its id and where it came from and otherwise the old one's fields; the old one is marked; no other changes |
| KeyRotation.RotatesIff | server/api/authority/register.js:98-127 | it succeeds exactly when the old authority is known, the new id free and nothing fails, and reports the bindings found |
| KeyRotation.CreatedBindingsNeverMove | server/api/binding/create.js:77-95 | bindings stored under a random id and without an `id` field are counted but not moved |
| KeyRotation.Registry.RotateKey | server/api/authority/register.js:97-183 | the saga with its rollbacks, step by step, for every place it may fail |
| KeyRotation.Registry.MigrateBindings | server/api/authority/register.js:157-166 | writes the bindings before the failing one, and remembers each with its key |
| KeyRotation.Registry.RestoreBindings | server/api/authority/register.js:167-171 | writes the remembered originals back in the same order |
| Cooldown.TimeLeftIsConserved | server/api/admin/index.js:895-979 | over any aborts and resumes the time left is the initial cooldown less the time not aborted, or zero |
| Cooldown.FullCooldownFirst | server/services/scheduler.js:192-215 | with blocking, automatic resets and retries added, no trigger is eligible, blocked or released before its full initial cooldown was spent not aborted |
| Cooldown.AtMostThreeResets | server/services/scheduler.js:192-215 | at most three automatic resets take effect, and the record counts them exactly |
| Cooldown.ThenOnlyRetryMoves | server/services/scheduler.js:196-200 | after the third, only an administrator's retry moves a blocked trigger |
| Cooldown.ReleasedStays | server/api/trigger/decision.js:290-305 | a released trigger is changed by none of these steps |
| Cooldown.AbortedIff | server/api/admin/index.js:895-979 | aborted exactly by an abort of a cooling trigger, until resumed |
| Cooldown.ReleasedIff | server/api/trigger/decision.js:307-332 | released exactly by a finaliser pass after the cooldown with a valid gate, for good |
| Cooldown.BlockedIff | server/api/trigger/decision.js:315-332 | blocked exactly by one with an invalid gate, until a retry or one of three resets when due |
| Cooldown.ResetDelays | server/services/scheduler.js:201-210 | the k-th reset makes a trigger wait exactly 2k minutes, a retry half a minute |
| Cooldown.ReleasedByValidGate | server/api/trigger/decision.js:307-332 | over any run a trigger is released only by a pass that found its gate valid |
| Cooldown.CreatedWaits | server/api/admin/index.js:1102-1103 | a created trigger waits its whole cooldown and has used no reset |
| Cooldown.ResumedWaits | server/api/admin/index.js:963-979 | a resumed trigger waits exactly what remained, or nothing if that was not recorded |
| Cooldown.Triggers.AbortTrigger | server/api/admin/index.js:895-920 | only a cooling trigger is aborted, with its remaining time kept |
| Cooldown.Triggers.ResumeTrigger | server/api/admin/index.js:950-979 | only an aborted trigger is resumed, with exactly what remained |
| Cooldown.Triggers.ResetBlocked | server/services/scheduler.js:192-215 | each blocked, due trigger with resets left is set back two minutes per reset so far; the rest stay |
| Cooldown.Triggers.RetryWalletPlan | server/api/admin/index.js:1011-1050 | each blocked trigger of that wallet and plan gets thirty seconds; the rest stay |
| Bindings.RunKeepsInv | server/api/binding/create.js:62-99 | over any run each authority's count is its number of active bindings and within capacity, and no two active bindings share wallet, authority and plan |
| Bindings.CreatesIff | server/api/binding/create.js:37-99 | a binding is created exactly for an authority's own request, known, verified, without an active one for that wallet and plan, and with room |
| Bindings.EndsIff | server/api/binding/delete.js:28-67 | a binding is ended exactly by its own authority, and only its status changes |
| Bindings.EmptyIsCounted | server/models/schemas.js:175-181 | authorities with a zero count and no bindings are such a start |
| Bindings.DeletedTwiceChangesNothing | server/api/binding/delete.js:36-42 | once deleted, deleting again at any later point changes nothing |
| Bindings.DeleteUndoesCreate | server/api/binding/delete.js:52-67 | deleting a created binding gives its capacity back |
| Bindings.DeletingReplacedUndercounts | server/api/binding/delete.js:36-67 | deleting a binding that was replaced makes a correct count wrong unless it is zero |
| Bindings.BindingService.CreateBinding | server/api/binding/create.js:25-99 | every refusal in the code's order, or one more active binding and one more in the count |
| Bindings.BindingService.DeleteBinding | server/api/binding/delete.js:24-67 | every refusal in the code's order, or a terminated binding and one less in the count |
| Base58.DecodedValue | server/middleware/auth.js:340-361 | the bytes have the string's base-58 value and exactly one leading zero byte per leading '1' |
| Base58.DecodeEncode | server/middleware/auth.js:340-361 | decoding undoes the standard encoder for every byte string |
| Base58.EncodeDecode | server/middleware/auth.js:340-361 | encoding undoes decoding for every valid string |
| Base58.DecodeInjective | server/middleware/auth.js:340-361 | no two valid strings decode to the same bytes |
| Base58.Base58Decode | server/middleware/auth.js:340-361 | the decoder succeeds exactly on valid strings, with those bytes, and names a foreign character otherwise |
| Base58.AddDigit | server/middleware/auth.js:343-353 | the in-place carry loop multiplies the buffer by 58 and adds a digit, within 32-bit range |
| Base58.MulAddCorrect | server/middleware/auth.js:343-353 | the buffer stays without leading zero digits and its value is 58 times the old one plus the digit |
| Base58.CharOfIsAlphabet | server/middleware/auth.js:334 | digits and characters follow the alphabet |
| Base58.PushLeadingZeros | server/middleware/auth.js:355-359 | one zero byte per leading '1' |
| Decimal.PrintParse | server/services/chainProvider.js:96-110 | parsing a formatted balance gives the balance chopped to the digits shown, at any scale |
| Decimal.TokenBalanceRoundTrip | server/services/chainProvider.js:154-169 | for a token of 1 to 18 decimals, parsing its formatted balance x gives x times 10^(18-d) |
| Decimal.NativeBalanceRoundsDown | client/release/recipient-activation.js:579-583 | for an 18-decimal native balance it gives x rounded down to a multiple of 10^12 |
| Decimal.TokenTextInjective | server/services/chainProvider.js:154-169 | distinct token balances have distinct texts |
| SessionToken.Base64UrlRoundTrip | server/middleware/auth.js:468-477 | unpadded base64url decodes back for every byte string |
| SessionToken.SextetsAt | server/middleware/auth.js:468-470 | each three bytes are four sextets with the same bits, most significant first |
| SessionToken.LastSextets | server/middleware/auth.js:468-470 | bytes left over are sextets filled up with zero bits |
| SessionToken.TextIsSextets | server/middleware/auth.js:468-470 | and the text is one character of the URL-safe alphabet for each sextet |
| SessionToken.FirstPointSplits | server/middleware/auth.js:482-499 | the first point of a created token separates payload and signature |
| SessionToken.CreatedTokenVerifies | server/middleware/auth.js:482-511 | verifying a created token returns its pubkey exactly while it is not empty and its expiry second has not passed |
| SessionToken.AcceptedMeansSigned | server/middleware/auth.js:493-503 | an accepted token's second part decodes to the HMAC of its first |
| SessionToken.VerifiesIff | server/middleware/auth.js:493-511 | a token is accepted for a pubkey exactly when what follows its first point decodes to the HMAC of what stands before, and that to a payload naming it whose expiry, if any, has not passed |
| SessionToken.NoPointNothing | server/middleware/auth.js:493-497 | a token without a point, or starting with one, is accepted for nobody |
| Utxo.FewestInputs | client/release/recipient-activation.js:524-531 | the greedy prefix has no more inputs than any subset that covers amount plus fee |
| Utxo.LargestAreBest | client/release/recipient-activation.js:524-531 | no choice of k coins is worth more than the k largest |
| Utxo.SortPermutes | client/release/recipient-activation.js:524 | sorting gives a descending permutation |
| Utxo.SortIsStable | client/release/recipient-activation.js:524 | and keeps coins of the same value in their order |
| Utxo.SortDescending | client/release/recipient-activation.js:524 | the array is sorted in place, stably |
| Utxo.SelectPrefix | client/release/recipient-activation.js:525-531 | the loop pushes the shortest covering prefix and totals it |
| Utxo.NeededIsLeast | client/release/recipient-activation.js:527-531 | the prefix covers the target whenever all coins do, and no shorter one does |
| Utxo.MakeOutputs | client/release/recipient-activation.js:537-546 | inputs are outputs plus fee plus absorbed change of at most 546 |
| Utxo.BuildTransfer | client/release/recipient-activation.js:510-550 | fails exactly when there are no coins or the total cannot cover amount and fee, and otherwise spends only coins that were there and conserves their value |

## Left out

- HTTP routing, authentication of callers, rate limits, e-mail, audit logs, all user interface code and chain clients: wrappers without state of their own. The multi-signature rate limiter is an input of each request, and the switch that disables it in tests is off.
- Cryptography: SHA-256 is injective or a parameter, HMAC, JSON and UTF-8 are parameters, signatures count as verified.
- Floating point: amounts are real numbers, and converting an amount to satoshis is an input.
- SQLite persistence, the Postgres backend, disk synchronisation and process crashes: a collection is a map.
- Interleaving inside a handler, except for the budget engine, the registry and deliveries: the other handlers and scheduler ticks are one step each.
- `recordSpend`, session caps, changes of key bindings or policy conditions during a run, forced redelivery and superseded delivery records.
- Delivery promises that reject and log writes that fail: one log id is followed, with every write succeeding.
- Transaction id normalisation, arrays or nulls as registry text, and the gateways' race: a gateway answers or does not.
- The length of a configured cooldown, and the duplicate check of an emergency release: a trigger starts with any length.
- Case folding beyond ASCII letters.
- Local time zones: schedules are in UTC. An allowance's start is kept by the model although the program keeps only the next execution.
- Vault routes: redemptions and vault transfers appear only as history records, and direct vault withdrawals are not limited here because their route does not call the limit check.
- Integer text that is not made of digits, for the wei conversion; and malformed base64, whose decoding is a parameter.
- Console output of the migration.
- `deleteByWalletId`, wallet plans, profiles and the authority search: the same statements again, or easy ones.
- Allowances.WithdrawalWindow: stated for members whose selected limit and period stay the same over the run, because a limit that changes has no one value to compare with.
- ReleaseStorage.ArweaveStorage.FetchFromArweave: id normalisation, the gateways' race and its retries are one input, because they decide only whether a text is reachable.
- ReleaseStorage.ArweaveStorage.ReplacePathPayload: the check that a manifest id and a complete body were given is not repeated, because it precedes every effect.
- Delivery.Deliverer.PreparePackage: how the manifest and payload are found is one input, an error or none, because only that reaches the log.
- Delivery.Deliverer.ReceiveReply: the classification of the HTTP answer as acknowledged, refused, retryable or resettable is an input, because it reads texts of a service that is not part of this model.
- Multisig.Approvals.RequireMultisig: the rate limiter's counters are an input verdict, because a refused request changes no record.
- KeyRotation.Registry.RotateKey: input validation and signature verification have succeeded, because a request that fails them changes nothing.
- Backfill.KeysAgree: asks that no row without a plan is stored where another will go, because otherwise the outcome depends on the row order; KeysNeverInTheWay says when that holds.
- Backfill.LastPathStays: asks that no path without a plan is stored under a plan's hash, because a row already overwritten there is not moved.
