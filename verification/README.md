# Plasmatix agent: verified model of the command and delivery core

The agent stands between a cloud service and ZKTeco scanners. This project models, in Dafny, how it
carries vault commands to scanners and results back without losing, repeating or leaking any, and
proves what that promises over every run.

**The lifecycle of a secret command.** A cloud id is reserved, a process claims the work and queues a
command; a poll makes it the pending command of its device and claims it for one request; that request
checks it, writes it, and an acknowledgement, a deadline, exhausted attempts, a failed check, a timer, a
supersession or a shutdown ends it; a terminator zeroes the payload and hands the result to a durable
outbox, from which a worker posts it. `Lifecycle` has one step for each critical section under the
server lock and for each action of the cloud, a scanner, the file system or a timer, and lets them
interleave in any order. Its state keeps, beside the server's own fields (`SecretServer`) and the outbox
(`ResultOutbox`), the goroutines between two critical sections and a history. The theorems are about
every state that a run can reach:

- `OwnershipInvariant`, `OwnershipSteps`, `OwnershipTheorems`: who holds each reserved id, and why there
  is always room for its result.
- `ExactlyOnce`: each command leaves once and is reported at most once; `ReportContents`: what that report
  says; `NothingLost`: where it is until the cloud has answered for it.
- `DurableOutbox`: what a crash can leave on disk.
- `CommandLife`: each step moves each command by at most one transition; on it rest `PayloadSafety`
  (one writer, whole or zeroed payloads), `DeletionTrail` (what an applied deletion has behind it) and
  `ServingOrder` (order, number and time of claims).
- `ServerObject`: the mutable server, whose loops over maps and queues are proved to compute the
  critical sections that the lifecycle uses; `ServerLaws`: when each of these grants, refuses, serves, ends
  or frees what, in terms of fields.
- `StepLaws`: what each step does to the commands in every reachable state; `Validators`: which claims,
  ids and results are let through.

**Around it.** `AckParsing` (strict parser and router of acknowledgements), `DeviceProtocol` (what is
learned about a scanner), `Compatibility` and `Acceptance` (who takes and who deletes which template, and
exactly when), `Base64`, `Base64Forms`, `Templates` and `Extraction` (commands printed for a scanner, and
which assets are read from one), `QueryPacks` (multipart replies under three limits), `CatchUp`
(transactions after a cursor), `GenericQueue`, `GenericOrder` and `ClockCodec` (the generic queue, its cloud
ids and its order, and clock commands), `Attendance` (what an acknowledged upload has stored).
`Identifiers`, `Text`, `Claims` and `Sets` hold the shared validators and string operations.

Classes model the objects that the source updates in place; each method is proved against a function on
the state, and the lemmas are about those functions. The clock, randomness, the file system, the cloud
and the scanners are parameters of the steps: how a persist ended, what the cloud answered, when a timer
fired.

Where the code differs from what one might expect: the retry counter of a stored result has no ceiling
although opening rejects more than a million retries (`DurableOutbox.RetriesCanOutgrowTheLimit`,
`DurableOutbox.DocumentsReopen`); a TA PUSH scanner takes face templates that its deletion check refuses
(`Compatibility.AFaceThatStays`); a bare clock template queued by the cloud escapes the one-template
rule (`GenericQueue.TwoTemplatesCanWait`, `GenericQueue.StepKeepsOneTemplate`); an attendance upload that
cannot be read to its end is acknowledged without being stored (`Attendance.AnUnreadUpload`,
`Attendance.Cloud.HandleUpload`), although "OK" makes the scanner forget its punches; and decoding inverts
the encoding of dates from 2000 on, but of earlier ones only under a condition
(`ClockCodec.AnEarlyDateThatMoves`, `ClockCodec.EarlyDatesReadBack`).

## Model

| member | source | states |
|---|---|---|
| OwnershipTheorems.ReservedIdsArePartitioned | cmd/plasmatix-agent/biometric_delivery.go:1405-1477 | In every reachable state of an open server the reserved ids are exactly the disjoint union of the ids in processing, of the queued, pending and terminating commands, and of the results waiting for the outbox; live commands hold different ids and there are at most 16 |
| OwnershipTheorems.ResultsFailOnlyThroughPersistence | cmd/plasmatix-agent/biometric_delivery.go:2054-2117 | Whatever result any step of any run hands to the outbox is valid, finds a slot and no conflicting record: Corrupt, Conflict and Full never happen, and it is committed exactly if the file operations succeed |
| OwnershipTheorems.QueueingFailsOnlyWhenClosed | cmd/plasmatix-agent/biometric_delivery.go:1444-1477 | In every reachable state a process that holds a reservation queues its command, unless the server was shut down; the "full" outcome is unreachable |
| OwnershipSteps.StepKeepsSafe | cmd/plasmatix-agent/biometric_delivery.go:291-585 | Every step of every actor keeps each reserved id with one owner that has a slot in the outbox, and keeps everything that may still be reported valid |
| OwnershipInvariant.EnqueueFits | cmd/plasmatix-agent/biometric_result_outbox.go:190-238 | With a free slot and no record for the command, storing a valid result appends exactly that record or, if persisting fails, leaves memory as it was; every document stays well formed |
| OwnershipInvariant.RemoveShape | cmd/plasmatix-agent/biometric_delivery.go:1527-1563 | Taking commands out of queues and pending keeps queues ascending, keys agreeing with commands, and the pending command of a device older than all it has queued |
| ExactlyOnce.CommandsLeaveExactlyOnce | cmd/plasmatix-agent/biometric_delivery.go:1847-1980 | Over every interleaving of acknowledgement, deadline, exhausted attempts, write timeout, compatibility failure, pre-serve expiry, supersession and shutdown, a command that is gone left exactly once, as applied, failed or discarded, and one that waits has not left; at most one report of it is stored, with its own outcome, and none if it was discarded |
| ReportContents.ReportsAreTheCommandsOwn | cmd/plasmatix-agent/biometric_delivery.go:126-142 | Over every run each stored report of a queued command carries the deployment, device, digest, cloud id, attempt and asset of that very command and never those of another, and says applied only with return code 0 and no error |
| NothingLost.ReportsAreNeverLost | cmd/plasmatix-agent/biometric_delivery.go:2054-2117 | In every reachable state the report of each command that left as applied or failed is in exactly one place: with the terminator of the command, waiting for a flush, or stored |
| NothingLost.ReportsReachTheCloud | cmd/plasmatix-agent/biometric_delivery.go:1982-2117 | End to end, over every run: from the moment a command leaves as applied or failed until the cloud answers 200 or 4xx for its report, the report is with the terminator, waits for a flush, or is in memory and in every document a crash may leave on disk |
| ExactlyOnce.StepAccounted | cmd/plasmatix-agent/biometric_delivery.go:1503-1683 | Every step keeps the account of departures, terminators, results waiting for the outbox and stored reports in agreement |
| DurableOutbox.ResultsSurviveCrashes | cmd/plasmatix-agent/biometric_result_outbox.go:190-285 | From its commit until the cloud answers 200 or 4xx, a result is in memory and in every document that a crash may leave on disk, with persisting failing before the rename, after it, or not at all |
| DurableOutbox.WorkerDropsWhatItPosted | cmd/plasmatix-agent/biometric_result_outbox.go:502-562 | In every reachable state the worker takes out of the document the one record whose post the cloud answered and leaves all others in their order; if persisting fails memory stays as it was and the worker stops |
| DurableOutbox.WorkerPutsOffWhatItPosted | cmd/plasmatix-agent/biometric_result_outbox.go:240-263 | In every reachable state the record whose post was refused gets one more attempt and is due 1, 2, 4 up to 256 and then 300 seconds from now, every other record stays, and if persisting fails all stay and the worker stops |
| DurableOutbox.DocumentsReopen | cmd/plasmatix-agent/biometric_result_outbox.go:58-127 | Every document a run writes or may leave on disk passes the checks made on opening exactly while no record in it has been retried more than a million times |
| DurableOutbox.RetriesCanOutgrowTheLimit | cmd/plasmatix-agent/biometric_result_outbox.go:240-263 | The retry counter has no ceiling: any valid record at a million retries that is refused once more leads to a document that does not open again |
| DurableOutbox.AStuckRecord | cmd/plasmatix-agent/biometric_result_outbox.go:381-425 | Such a record exists: a valid one at a million retries |
| ResultOutbox.BackoffIsCappedPower | cmd/plasmatix-agent/biometric_result_outbox.go:447-459 | The delay before retry n is exactly min(2^(n-1), 300) seconds for n from 1 on |
| ResultOutbox.BackoffMonotone | cmd/plasmatix-agent/biometric_result_outbox.go:447-459 | The delay never shrinks with more attempts and stays between 0 and 300 seconds |
| ResultOutbox.ComputeBackoff | cmd/plasmatix-agent/biometric_result_outbox.go:447-459 | The doubling loop ends and computes that delay |
| ResultOutbox.Outbox.EnqueueWithCommit | cmd/plasmatix-agent/biometric_result_outbox.go:190-238 | The search and append with rollback computes the specified store and outcome: an invalid record, an equal or different record of the same command, no room, a failed or a successful persist |
| ResultOutbox.OneRecordPerCommand | cmd/plasmatix-agent/biometric_result_outbox.go:213-237 | A second result of a command is confirmed if it says the same and a conflict if not, without touching the store; only a new command needs one of the 64 slots and the disk, and is appended with no attempts and due at once |
| ResultOutbox.Outbox.RecordRetry | cmd/plasmatix-agent/biometric_result_outbox.go:240-263 | The first record with the key gets attempts n + 1 and is due min(2^n, 300) seconds from now if persisting succeeds; every other record stays, and if it fails so does this one |
| ResultOutbox.Outbox.Remove | cmd/plasmatix-agent/biometric_result_outbox.go:265-285 | Removes the record with the key, restores the document if persisting fails, and succeeds if there is none |
| ResultOutbox.Outbox.Admit | cmd/plasmatix-agent/biometric_result_outbox.go:293-307 | Reports whether a record of the command waits, and whether records and reservations leave room |
| ResultOutbox.Outbox.Next | cmd/plasmatix-agent/biometric_result_outbox.go:309-324 | Returns a record due no later than any other, and how long it has to wait |
| CommandLife.StepMoves | cmd/plasmatix-agent/biometric_delivery.go:1444-1980 | In every step of the system every command stays as it is or takes one transition of its own life: queued, claimed, checked, written, detached, zeroed, ended |
| StepLaws.NoOtherCommandWaits | cmd/plasmatix-agent/biometric_delivery.go:1527-1563 | In every run, after a supersession no waiting command of the deployment has another id, every other command that waited still waits, and the superseded ones leave without a report |
| StepLaws.OrdersAreClaims | cmd/plasmatix-agent/biometric_delivery.go:424-560 | The order a process works on is the claim of the cloud, field by field |
| StepLaws.ProcessesReportTheirOrder | cmd/plasmatix-agent/biometric_delivery.go:1982-2040 | A process that fails reports its own order and its code: the result is stored and the id free, or it waits and holds the id |
| StepLaws.TerminatorsSettle | cmd/plasmatix-agent/biometric_delivery.go:1924-1980 | After zeroing, a terminator reports what it holds for the deployment of its command, or releases the id, or, after a shutdown, does neither |
| StepLaws.PollsServeAgain | cmd/plasmatix-agent/biometric_delivery.go:1570-1611 | In every run a poll claims a free pending command of the device once more while that is allowed, and otherwise fails it with network_unavailable and no one else |
| StepLaws.PollsTakeTheOldest | cmd/plasmatix-agent/biometric_delivery.go:1612-1628 | In every run a poll of a device with nothing pending makes the oldest queued command pending with attempt 1, and leaves the queue without it |
| StepLaws.DeviceCheckDecides | cmd/plasmatix-agent/main.go:1291-1297 | A device that refuses the command fails it with that code; one that takes it lets a deployment be written and a deletion be rechecked |
| StepLaws.RecheckDecides | cmd/plasmatix-agent/biometric_delivery.go:1724-1736 | A recheck passes exactly on a valid claim that repeats the command field by field under a lease that still runs; a cloud without an answer leaves the command to the next poll; anything else gives it up without a report |
| StepLaws.LeaseDecides | cmd/plasmatix-agent/biometric_delivery.go:1737-1745 | A deletion goes on exactly if its lease runs more than 20 seconds beyond now, and otherwise waits for the next poll |
| StepLaws.SecondCheckDecides | cmd/plasmatix-agent/biometric_delivery.go:1746-1750 | The second look at the device fails the command with its code, or makes it ready under the new lease |
| StepLaws.WritesDecide | cmd/plasmatix-agent/biometric_delivery.go:1753-1787 | A write starts exactly while the command is pending with this request and keeps its payload, sends the prefix and what the payload holds, and marks the command served if it still is pending |
| StepLaws.BrokenWritesDecide | cmd/plasmatix-agent/biometric_delivery.go:1774-1785 | A write that timed out fails the command; one that broke leaves it to the next poll |
| StepLaws.AcknowledgementsEnd | cmd/plasmatix-agent/biometric_delivery.go:1948-1980 | In every run an acknowledgement takes out exactly the command it names for that device, as applied or failed by its return code, and nobody else |
| StepLaws.PreServeTimerDecides | cmd/plasmatix-agent/biometric_delivery.go:1503-1525 | The pre-serve timer gives up a command exactly while it is queued |
| StepLaws.DeadlineDecides | cmd/plasmatix-agent/biometric_delivery.go:1661-1683 | The deadline fails a command exactly while it is pending |
| StepLaws.ShutdownDropsAll | cmd/plasmatix-agent/biometric_delivery.go:2366-2396 | In every run a shutdown drops each waiting command without a report and leaves no id reserved and every result where it is |
| Validators.UUIDsAre | cmd/plasmatix-agent/biometric_delivery.go:1320-1345 | The valid ids are exactly five dashed groups of 8, 4, 4, 4 and 12 lower-case hexadecimal digits, of version 1 to 5 and the variant of RFC 4122 |
| Validators.NamesAre | cmd/plasmatix-agent/biometric_delivery.go:1347-1403 | The exact alphabets and lengths of identifiers, digests and error codes |
| Validators.ClaimsAreTakenExactly | cmd/plasmatix-agent/biometric_delivery.go:810-892 | A process takes exactly the claims of its own command whose fields are in range: all conditions on a deployment and on a deletion |
| Validators.ResultsAre | cmd/plasmatix-agent/biometric_result_outbox.go:381-425 | The outbox stores exactly four shapes of result: a deployment or a deletion, applied or failed |
| PayloadSafety.ServesSendWhatWasQueued | cmd/plasmatix-agent/biometric_delivery.go:1898-1922 | Every completed serve sent exactly the prefix with the local id and the bytes that were queued under it |
| PayloadSafety.QueuedBytesAreFixed | cmd/plasmatix-agent/biometric_delivery.go:1463-1472 | What was queued under a local id never changes and ids are never used again |
| PayloadSafety.PayloadsAreWholeOrZeroed | cmd/plasmatix-agent/biometric_delivery.go:119-124 | While a command waits or a write of it runs, its payload is what was queued; a command that is neither queued nor pending and has no terminator holds nothing |
| PayloadSafety.OneWriterPerCommand | cmd/plasmatix-agent/biometric_delivery.go:1860-1891 | A pending command is marked as being written exactly while one request serves it |
| PayloadSafety.PollsShareNoCommand | cmd/plasmatix-agent/biometric_delivery.go:1570-1628 | A poll never hands out a command that another request is still serving |
| DeletionTrail.AppliedDeletionsWereEarned | cmd/plasmatix-agent/biometric_delivery.go:1719-1845 | A deletion leaves as applied only after, in this order and without any other check or write of it in between, a recheck that matched attempt, asset and metadata, a lease of that very claim beyond now plus the write timeout, a passing compatibility check and a complete write; and after that an acknowledgement with return code 0 |
| ServingOrder.DevicesAreServedInOrder | cmd/plasmatix-agent/biometric_delivery.go:1570-1628 | Each device is handed commands in increasing id order, and the same command again only with a higher attempt, whatever was removed in between |
| ServingOrder.ClaimsAreFewAndTimely | cmd/plasmatix-agent/biometric_delivery.go:1584-1611 | Every claim has attempt 1 to 3 and comes less than 30 seconds after the first claim of its command |
| ServingOrder.NoFourthClaim | cmd/plasmatix-agent/biometric_delivery.go:1584-1588 | No command is ever claimed a fourth time |
| ServingOrder.OnePendingPerDevice | cmd/plasmatix-agent/biometric_delivery.go:1612-1628 | Pending keys agree with the device and id of their command, and a device has at most one |
| ServingOrder.IterationOrderIsIrrelevant | cmd/plasmatix-agent/biometric_delivery.go:1573-1577 | Whichever pending entry of a device a map iteration meets, it is the only one, so a claim does not depend on the order |
| ServerObject.Server.ReserveSecretCommand | cmd/plasmatix-agent/biometric_delivery.go:1405-1436 | Adds the id exactly when the reservation rules allow it, with the same code for each refusal, and changes nothing else |
| ServerObject.Server.ReleaseSecretCommand | cmd/plasmatix-agent/biometric_delivery.go:1438-1442 | Drops the id and changes nothing else |
| ServerObject.Server.EnqueueSecretCommand | cmd/plasmatix-agent/biometric_delivery.go:1444-1477 | Appends the command under the next local id, or refuses it for an invalid command, a closed server or a missing reservation |
| ServerObject.Server.ExpireQueuedDeleteCommand | cmd/plasmatix-agent/biometric_delivery.go:1503-1525 | The search takes the command out of its queue exactly if it still is there, which is the same as removing it everywhere |
| ServerObject.Server.SupersedeSecretDeployment | cmd/plasmatix-agent/biometric_delivery.go:1527-1563 | The loops over all queues and over the pending map return each waiting command of the deployment whose id is not the current one, once, and no other; afterwards exactly the others wait, in their order |
| ServerObject.Server.ClaimSecretCommandWriter | cmd/plasmatix-agent/biometric_delivery.go:1570-1628 | The iteration over the pending map in any order reports busy, detaches an exhausted command, or claims the pending or else the oldest queued command |
| ServerObject.Server.DetachExactPendingSecretCommandLocked | cmd/plasmatix-agent/biometric_delivery.go:1879-1891 | Detaches exactly a command that is pending under its own key and clears its writer mark |
| ServerObject.Server.ReleaseSecretCommandWriter | cmd/plasmatix-agent/biometric_delivery.go:1860-1867 | Clears the writer mark exactly of a command that is still pending |
| ServerObject.Server.MarkSecretCommandServed | cmd/plasmatix-agent/biometric_delivery.go:1869-1877 | Marks as served, and free of a writer, exactly a command that is still pending |
| ServerObject.Server.BeginSecretCommandWrite | cmd/plasmatix-agent/biometric_delivery.go:1752-1769 | Lets a write begin exactly if the command is pending, claimed and not zeroed, and gives the claim back if it is zeroed |
| ServerObject.Server.CompleteSecretCommand | cmd/plasmatix-agent/biometric_delivery.go:1948-1980 | Detaches the pending command and builds its result, except for a deletion that was not served |
| ServerObject.Server.EnqueueBiometricResultLocked | cmd/plasmatix-agent/biometric_delivery.go:2054-2090 | Stores the result and forgets the id, or keeps the first result of the command waiting; an unusable result only frees the id |
| ServerObject.Server.FlushPendingBiometricResults | cmd/plasmatix-agent/biometric_delivery.go:2092-2117 | Tries every waiting result once, in some order, and reports success exactly if none is left |
| ServerObject.Server.ShutdownBiometricDelivery | cmd/plasmatix-agent/biometric_delivery.go:2366-2396 | Closes the server once, empties queues, pending and reserved ids, and returns every waiting command exactly once |
| ServerLaws.ReservationRule | cmd/plasmatix-agent/biometric_delivery.go:1405-1436 | An id is granted exactly if it is a UUID, the server is open with a working outbox, the id is neither held nor has a stored record, fewer than 16 ids are held, and ids and records are fewer than 64; a refusal changes nothing |
| ServerLaws.RefusalCodes | cmd/plasmatix-agent/biometric_delivery.go:1405-1436 | Which refusal gets which code; an id that is held or reported already gets none |
| ServerLaws.QueueingRule | cmd/plasmatix-agent/biometric_delivery.go:1444-1477 | A command is queued exactly if its ids are valid, the server is open, its id is held and at most 16 are; it comes last for its device under the next local id, unserved and free, and nothing else changes |
| ServerLaws.PendingIsServedAgain | cmd/plasmatix-agent/biometric_delivery.go:1578-1611 | A pending command that no request is at is handed out again while it was claimed fewer than 3 times and 30 seconds since the first claim have not passed, and detached after that |
| ServerLaws.OldestIsServedFirst | cmd/plasmatix-agent/biometric_delivery.go:1612-1628 | A device with nothing pending is handed the oldest of its queue for the first time; the others stay in line |
| ServerLaws.AcknowledgementRule | cmd/plasmatix-agent/biometric_delivery.go:1948-1980 | An acknowledgement ends the command that is pending under its id for that device, but no deletion that was not served, and reports order and return code field by field |
| ServerLaws.WritingRule | cmd/plasmatix-agent/biometric_delivery.go:1753-1768 | The bytes go out exactly while the command is pending with this request and keeps its payload; a request that finds the payload gone gives the command up |
| ServerLaws.FreeingRule | cmd/plasmatix-agent/biometric_delivery.go:1860-1877 | Giving a command up and having served it free it for the next poll, exactly while it is pending |
| ServerLaws.FlushRule | cmd/plasmatix-agent/biometric_delivery.go:2092-2117 | A flush that stores a waiting result frees its id, and one that does not leaves it waiting |
| ServerLaws.ShutdownRule | cmd/plasmatix-agent/biometric_delivery.go:2366-2396 | Afterwards the server is closed, nothing waits and no id is held; waiting and stored results stay |
| ServerLaws.HandingOverRule | cmd/plasmatix-agent/biometric_delivery.go:2054-2090 | A stored result frees its id, one that could not be stored waits, the first that waits stays, and one without valid ids is given up with its id |
| ServerObject.RemoveTwice | cmd/plasmatix-agent/biometric_delivery.go:1527-1563 | Removing commands in two goes is removing them at once, which is what the two loops rely on |
| AckParsing.StrictACKInteger | cmd/plasmatix-agent/biometric_delivery.go:2297-2325 | Accepts only signed digit strings whose value is in range, and all of them when the lower bound is no further from zero than maximum + 1; the accumulator never passes maximum + 1 for a maximum of at least 8 |
| AckParsing.ParseACK | cmd/plasmatix-agent/biometric_delivery.go:2249-2281 | Accepts exactly the bodies that name one id and one return code in either order, with their meaning; any other body yields the first id that some field names as it stands, or 0 if none does or if the first of two fields is an id or a return code with a bad number |
| AckParsing.PrintedIsAcknowledged | cmd/plasmatix-agent/biometric_delivery.go:2249-2281 | Every id and return code in range, printed in either order, acknowledges exactly that id and code, and is routed by exactly that id |
| AckParsing.AcceptedIsRouted | cmd/plasmatix-agent/biometric_delivery.go:2163-2192 | Whatever the strict parser accepts the percent-decoding router reads as exactly that one id |
| AckParsing.SecretsAreRoutedAsSecrets | cmd/plasmatix-agent/biometric_delivery.go:2137-2161 | A valid acknowledgement goes to the secret queue exactly if its id is pending there, so no valid secret acknowledgement is misrouted |
| AckParsing.RouteACK | cmd/plasmatix-agent/biometric_delivery.go:2137-2161 | A pending secret id among the routed ones has precedence over a generic one, and without either the route is unknown |
| AckParsing.InspectRoutingIDs | cmd/plasmatix-agent/biometric_delivery.go:2163-2192 | Collects in order the ids of all fields whose decoded key is ID and whose decoded value is a number in range |
| AckParsing.DecodeRoutingComponent | cmd/plasmatix-agent/biometric_delivery.go:2194-2216 | The scan with jumps computes the percent-decoding of the whole component or rejects it |
| AckParsing.EncodedDecodes | cmd/plasmatix-agent/biometric_delivery.go:2194-2229 | Any bytes, percent-encoded with upper or lower case digits, decode to themselves (section 2.1 of RFC 3986) |
| AckParsing.InspectID | cmd/plasmatix-agent/biometric_delivery.go:2283-2295 | Finds the first id that a field names without decoding, and 0 only if none does |
| DeviceProtocol.TrackersStayWellKept | cmd/plasmatix-agent/adms_protocol.go:75-129 | Over every run of observations confidence is 90, 95 or 0 by profile, evidence has at most 16 entries, capability keys stay normalized, a TA profile has a TA version, and TA and AC never follow each other directly |
| DeviceProtocol.ObserveProtocol | cmd/plasmatix-agent/adms_protocol.go:75-129 | The branches take a step of the specified tracker; from a well-kept state the next one is well kept and does not switch between TA and AC, the reported capabilities in normal form overwrite the stored ones and nothing else is lost, and the time of observation is the new one wherever anything changed |
| DeviceProtocol.ProfilesTurn | cmd/plasmatix-agent/adms_protocol.go:75-129 | Every observation of a tracked scanner turns its profile, confidence, version and evidence by route and version: AC, TA, unknown on a conflict, or unchanged; of each capability it keeps what was reported last |
| DeviceProtocol.NormalizeCapabilities | cmd/plasmatix-agent/adms_protocol.go:148-162 | In whatever order the map is iterated, each key appears once in its normal form and keys that fall together become invalid |
| DeviceProtocol.OneNormalization | cmd/plasmatix-agent/adms_protocol.go:148-162 | That normal form is unique |
| DeviceProtocol.StoredIsItsNormalForm | cmd/plasmatix-agent/adms_protocol.go:131-162 | Over every run of observations the stored capabilities are their own normal form, and the only one |
| Compatibility.DeployableIsDeletable | cmd/plasmatix-agent/biometric_delivery.go:1038-1126 | For every state and claimed asset that the live renderer check accepts, the deletion check accepts it, and picks the table it is written to, exactly unless it is a face template on TA PUSH |
| Compatibility.AFaceThatStays | cmd/plasmatix-agent/biometric_delivery.go:1060-1068 | A TA PUSH state that one request brings a tracker into, and a face template that it takes and will not delete |
| Compatibility.VersionsAgree | cmd/plasmatix-agent/adms_biometrics.go:206-226 | On approved versions the textual and the numeric test for an old PUSH version agree |
| Compatibility.PushVersionBefore | cmd/plasmatix-agent/adms_biometrics.go:206-226 | The loops over the version arrays compare the first three numbers in order |
| Acceptance.DeploysExactly | cmd/plasmatix-agent/biometric_delivery.go:1179-1288 | A template is accepted exactly if the scanner is trusted and known, the person is identified, one of five record types takes it, and a template is of the family, version and format that the scanner runs, all in fields of state, capabilities and claim |
| Acceptance.RendererIsJudged | cmd/plasmatix-agent/biometric_delivery.go:1179-1288 | Which of trust, identity, target, record type and algorithm decides, in this order, and with which code |
| Acceptance.DeletionIsJudged | cmd/plasmatix-agent/biometric_delivery.go:1038-1126 | For every scanner and target the deletion check picks the record of the table by profile, kind, version and reported algorithm, or the code of the first condition that fails |
| Acceptance.ApprovedVersions | cmd/plasmatix-agent/biometric_delivery.go:1290-1318 | Of all versions a.b.c exactly 2.2.x, 2.3.x, 2.4.0 and 2.4.1 are approved, and exactly those below 2.2.14 write the old table |
| Acceptance.CompareIsLexicographic | cmd/plasmatix-agent/biometric_delivery.go:1308-1318 | Versions compare number by number, the first first |
| Acceptance.AlgorithmVersions | cmd/plasmatix-agent/adms_biometrics.go:183-204 | Every printed algorithm version with a positive major number is read back, behind a prefix with a colon or without one |
| Acceptance.TAVersions | cmd/plasmatix-agent/adms_protocol.go:90-112 | A version speaks TA PUSH exactly if it starts with 2.2, 2.3 or 2.4, whatever follows a second dot |
| Templates.RenderedTemplatesReadBack | cmd/plasmatix-agent/biometric_capture.go:137-258 | Every accepted fingerprint or face template of a claim within limits, printed as FP, FINGERTMP or BIODATA and read by the extractor of that table, gives back the same PIN, slot, type, kind, algorithm family, version, format and bytes |
| Templates.TrackedTemplatesReadBack | cmd/plasmatix-agent/biometric_capture.go:137-258 | The same for every state a tracker comes to: whatever normal form of its capabilities the renderer checked, the template reads back with the capabilities as they are stored |
| Templates.RenderTemplate | cmd/plasmatix-agent/biometric_delivery.go:1128-1177 | The growing buffer is the tab-joined fields of the record that the state calls for, and empty with the code of the check otherwise |
| Templates.ParseFields | cmd/plasmatix-agent/biometric_capture.go:260-281 | One table holds for every key its values in the order of the row, the other the last of them |
| Templates.ExtractAssets | cmd/plasmatix-agent/biometric_capture.go:98-135 | All rows in order, blank ones skipped, or nothing if there are too many or one is bad |
| Extraction.CapturedExactly | cmd/plasmatix-agent/biometric_capture.go:137-258 | A row yields an asset exactly if it names one valid person, one type and slot of its table, and a payload that decodes within the limit of its kind; its algorithm is the one that row and scanner agree on, or unknown |
| Extraction.UploadsAreRead | cmd/plasmatix-agent/biometric_capture.go:98-135 | An upload of up to 64 lines yields the assets of its lines that are not blank, in order; one line without an asset, or a line too many, yields nothing |
| Extraction.LegacyText | cmd/plasmatix-agent/biometric_delivery.go:1140-1153 | The fields of a fingerprint command, in the table of the version |
| Extraction.BiodataText | cmd/plasmatix-agent/biometric_delivery.go:1154-1166 | The fields of a BIODATA command |
| Extraction.PhotoText | cmd/plasmatix-agent/biometric_delivery.go:1167-1175 | The fields of a photo command |
| Base64.EncodedDecodes | cmd/plasmatix-agent/biometric_capture.go:567-598 | Decoding the base 64 of any bytes gives them back (section 4 of RFC 4648) |
| Base64.BoundedReads | cmd/plasmatix-agent/biometric_capture.go:567-598 | The bounded decoder gives back encoded bytes up to the limit and rejects longer ones as too large |
| Base64.BrokenTextReads | cmd/plasmatix-agent/biometric_capture.go:567-598 | Encoded bytes also read back from a text that is broken into lines |
| Base64.DecodeBounded | cmd/plasmatix-agent/biometric_capture.go:567-598 | The loop over the four encodings returns what the first that accepts the text makes of it, within the limit |
| Base64Forms.DigitsAre | cmd/plasmatix-agent/biometric_capture.go:567-598 | The digits are those of the two alphabets of RFC 4648 |
| Base64Forms.AnyFormReads | cmd/plasmatix-agent/biometric_capture.go:567-598 | Bytes up to the limit read back from any of the four encodings, with either alphabet of RFC 4648, padded or not; longer ones are too large |
| Base64Forms.FormsDecode | cmd/plasmatix-agent/biometric_capture.go:567-598 | A decoder for another encoding refuses a text or reads the same bytes from it, never others |
| QueryPacks.Assembler.CollectQueryPack | cmd/plasmatix-agent/adms_limits.go:36-72 | Expiry, the three limits, completion and storing as specified; afterwards every buffer has at most 8 MiB, all together at most 32 MiB in at most 64 buffers, both maps have the same keys, and nothing past its time is kept |
| QueryPacks.Assembler.Expire | cmd/plasmatix-agent/adms_limits.go:45-54 | Drops exactly the replies past their time and adds up the lengths of the others |
| QueryPacks.EveryKeyGathersItsOwn | cmd/plasmatix-agent/adms_limits.go:36-72 | Over every run of calls what is held for each key is exactly the concatenation of its own accepted packs since it was last completed, rejected or expired, so no call touches another live key |
| QueryPacks.FinalPackCompletes | cmd/plasmatix-agent/adms_limits.go:63-68 | A final pack returns the in-order concatenation of the packs accepted for its key and itself |
| QueryPacks.PacksAreAcceptedExactly | cmd/plasmatix-agent/adms_limits.go:36-72 | Over every run of calls: a pack is rejected exactly if its reply would pass 8 MiB, all unfinished replies together 32 MiB, or it opens a sixty-fifth one; otherwise a final pack completes with what its key has gathered and itself, and any other is stored |
| QueryPacks.CollectKeepsLimits | cmd/plasmatix-agent/adms_limits.go:55-71 | No call passes a limit |
| CatchUp.PrepareBatch | cmd/plasmatix-agent/zkbiotime.go:596-622 | Rejects a page with an invalid id; otherwise returns exactly the rows above the cursor, sorted, and the last id or the cursor |
| CatchUp.IDsAreSafe | cmd/plasmatix-agent/zkbiotime.go:581-594 | The valid ids are exactly the whole numbers from 1 to 2^53 - 1 |
| CatchUp.AboveKeepsAll | cmd/plasmatix-agent/zkbiotime.go:600-609 | Rows above the cursor are kept as often as the page has them, and no other |
| CatchUp.CatchUpTransactions | cmd/plasmatix-agent/zkbiotime.go:624-653 | Whatever the servers do it ends, every acknowledged batch is sorted and above the cursor it was fetched after, each starts where the one before ended, the cursor never goes back, and it succeeds only on a page with nothing new above it |
| CatchUp.Poller.PollOnce | cmd/plasmatix-agent/zkbiotime.go:552-573 | The cursor is loaded once and moves only when a whole catch-up succeeded, to the last acknowledged id |
| CatchUp.CursorIsAcknowledged | cmd/plasmatix-agent/zkbiotime.go:552-573 | Over every run of polls the cursor never goes back and never passes what was acknowledged |
| CatchUp.NothingIsSkipped | cmd/plasmatix-agent/zkbiotime.go:624-653 | Over every run of polls of a source that grows between the fetches, whatever failed, each transaction of the source between the first checkpoint and the cursor was in a batch that the bridge acknowledged |
| CatchUp.PagesStayComplete | cmd/plasmatix-agent/zkbiotime.go:311-354 | A batch that left out nothing of the source it was fetched from leaves out nothing after the source has grown |
| CatchUp.DeliveredIsFetched | cmd/plasmatix-agent/zkbiotime.go:624-653 | What the rounds of a catch-up delivered are batches of pages that the growing source gave at the times of the rounds |
| CatchUp.FrozenSourceIsDelivered | cmd/plasmatix-agent/zkbiotime.go:624-653 | On a frozen source a catch-up that succeeds has delivered every id above the cursor, in no more batches than there were ids |
| CatchUp.FrozenSourceCatchesUp | cmd/plasmatix-agent/zkbiotime.go:624-653 | On a frozen source whose pages arrive and are relayed a catch-up ends with success and every id above the cursor delivered, in no more batches than there were ids |
| GenericQueue.CloudIDsAreExact | cmd/plasmatix-agent/main.go:1388-1410 | Over every run the cloud ids held back are exactly the non-empty ones of queued, popped and pending commands, each carried by one command |
| GenericQueue.LocalIDsAreDisjoint | cmd/plasmatix-agent/main.go:1388-1410 | No pending generic command has the local id of a secret one |
| GenericQueue.EachInOnePlace | cmd/plasmatix-agent/main.go:1276-1365 | Each queued or pending command is in flight in that one place only |
| GenericQueue.ReportedAtMostOnce | cmd/plasmatix-agent/main.go:1354-1607 | A queued command is reported to the cloud at most once, whether it is refused, finished or an invalid deployment reference, and then is no longer in flight |
| GenericQueue.TemplatesDoNotPileUp | cmd/plasmatix-agent/adms_clock.go:113-132 | Over any run of clock ticks and polls a device has at most one unfilled clock template queued |
| GenericQueue.StepKeepsOneTemplate | cmd/plasmatix-agent/main.go:1374-1386 | A step leaves a second template exactly if it queues the bare template from elsewhere, under no cloud id or one that is not in flight, while one waits |
| GenericQueue.TwoTemplatesCanWait | cmd/plasmatix-agent/main.go:1388-1410 | A run of one tick and one cloud command after which two templates wait |
| GenericQueue.Commands.EnqueueADMSCommand | cmd/plasmatix-agent/main.go:1388-1410 | Appends under the next local id and holds the cloud id back, or returns 0 for a cloud id in flight |
| GenericQueue.Commands.EnqueueCommandUnlessPending | cmd/plasmatix-agent/main.go:1374-1386 | Appends exactly if no queued command of the device is the same, and otherwise names the first that is |
| GenericQueue.Commands.PopCommand | cmd/plasmatix-agent/main.go:1313-1331 | Takes the head of the queue, fills a clock template, and frees the cloud id of a reference |
| GenericQueue.Commands.RefuseCommand | cmd/plasmatix-agent/main.go:1340-1345 | Frees the cloud id of a command that is not rendered and changes nothing else |
| GenericQueue.Commands.ServeCommand | cmd/plasmatix-agent/main.go:1355-1358 | Makes the command pending under its device and local id and changes nothing else |
| GenericQueue.Commands.FinishCommand | cmd/plasmatix-agent/main.go:1582-1597 | Takes the command out of pending and frees its cloud id |
| GenericOrder.FirstInFirstOut | cmd/plasmatix-agent/main.go:1313-1410 | Over every run what came for a device is what polls took for it, in that order, and what is still queued; taken commands are unchanged but for a clock template, which tells the time of the poll |
| GenericOrder.EveryRunTraces | cmd/plasmatix-agent/main.go:1313-1410 | Every run has such a record of what came and what was taken |
| GenericOrder.PoppedCommandsGoOn | cmd/plasmatix-agent/main.go:1340-1358 | In every run a popped command that is refused ends and is reported under its cloud id, and one that is served waits under its device and local id |
| GenericOrder.PendingCommandsEnd | cmd/plasmatix-agent/main.go:1582-1607 | In every run an acknowledgement ends the command that waits under its key, frees its cloud id and reports it, and touches no other |
| GenericOrder.ReferencesAre | cmd/plasmatix-agent/biometric_delivery.go:210-265 | A word and a UUID are a reference exactly under the two names, and a deployment reference is invalid exactly without a UUID as cloud id or a valid serial number |
| ClockCodec.EncodingUnits | cmd/plasmatix-agent/adms_clock.go:20-25 | What a year, month, day, hour, minute and second count in the packed number, and the value that the source works out by hand |
| ClockCodec.DatesReadBack | cmd/plasmatix-agent/adms_clock.go:30-41 | Every date from the year 2000 on decodes to itself |
| ClockCodec.DecodedIsADate | cmd/plasmatix-agent/adms_clock.go:27-41 | Every number decodes to a date of the calendar |
| ClockCodec.DecodedEncodesBack | cmd/plasmatix-agent/adms_clock.go:27-41 | From 0 on that date encodes back to the number exactly if the number packs a date that exists, and to a later number if it packs a day past the end of its month |
| ClockCodec.EarlyDatesReadBack | cmd/plasmatix-agent/adms_clock.go:27-41 | A date before 2000 decodes to itself exactly if its month has 31 days or it is midnight on the first of the month |
| ClockCodec.AnEarlyDateThatMoves | cmd/plasmatix-agent/adms_clock.go:27-41 | 28 February 1999 decodes to 25 February |
| ClockCodec.EncodingIsMonotone | cmd/plasmatix-agent/adms_clock.go:20-25 | Encoding orders dates as year, month, day and time of day do, in both directions |
| ClockCodec.SecondsOrder | cmd/plasmatix-agent/adms_clock.go:20-25 | The time of day in seconds orders as hour, minute and second do |
| ClockCodec.FilledTellsTheTime | cmd/plasmatix-agent/adms_clock.go:72-77 | A filled clock command is no template and determines the time it was filled with, in any year |
| Attendance.Cloud.HandleUpload | cmd/plasmatix-agent/main.go:651-686 | For any cloud whose confirmations are true, whatever else it answers or has committed: exactly the rows that its answers confirm, a prefix of the upload, are confirmed in order; the scanner hears OK exactly if the upload could not be read or all of its rows were confirmed; among acknowledged uploads exactly the unread ones that hold rows are not stored; a read and acknowledged one has every row committed, and a TA PUSH scanner hears their number |
| Attendance.AnUnreadUpload | cmd/plasmatix-agent/main.go:656-661 | An upload of one row that breaks off is acknowledged, and no row is confirmed or committed |
| Attendance.AShortCount | cmd/plasmatix-agent/adms_attlog.go:131-134 | A cloud that accepts every batch but counts and commits no row: the upload is answered with 503 and no row is confirmed |
| Attendance.Cloud.SaveAttendance | cmd/plasmatix-agent/adms_attlog.go:90-98 | The rows confirmed are exactly those that the answers of the cloud confirm batch by batch, always a prefix, and success means all of them; the batches sent are the rows in order, 1000 each but the last |
| Attendance.Cloud.PostBatch | cmd/plasmatix-agent/adms_attlog.go:123-135 | All rows are confirmed if an accepted answer has their count; an accepted answer with another count fails and confirms none, whatever it committed; after the batch rows are sent one by one exactly if the cloud ignored it |
| Attendance.Cloud.PostRows | cmd/plasmatix-agent/adms_attlog.go:139-146 | One request for each row, in order, up to the first failure, and the rows before it are confirmed |
| Attendance.AnswersMean | cmd/plasmatix-agent/adms_attlog.go:167-181 | Which answers mean that the cloud took a request, that it does not know it, and that it failed |
| Attendance.RowsSentAre | cmd/plasmatix-agent/adms_attlog.go:139-146 | The rows confirmed one by one are those before the first that the cloud does not take |
| Attendance.BatchSentIs | cmd/plasmatix-agent/adms_attlog.go:123-135 | A batch counts whole if the cloud takes it with the right count, row by row if it ignores it, and not at all otherwise |
| Attendance.ParseRows | cmd/plasmatix-agent/adms_attlog.go:30-46 | Exactly the rows of the lines that can be read, in order |

## Left out

- Secret commands are held by value in a map under their local id instead of behind shared pointers, so aliasing of one command object is not modelled; the local id stands for the pointer.
- `zeroPayload` makes the payload empty at once; that bytes are overwritten in place before the slice is dropped is not modelled. The payload lock is modelled as: no zeroing while a write runs.
- Timers: the pre-serve and deadline callbacks may run at any time after the command was queued, not only when 25 s or 30 s have passed, and stopping a timer is not modelled; the theorems hold for this larger set of runs.
- Supersession and shutdown detach in one step, but their commands are zeroed and released one by one in any order; a flush stores one waiting result per step. Both allow more interleavings than the source.
- The worker picks any record, not only the one due first, and may pick before every flush succeeded; the order is stated for `ResultOutbox.Outbox.Next` alone.
- In `Lifecycle` the outcome of the live compatibility check and of the payload fetch is an input of the step; what the check computes is in `Compatibility`.
- A server without an outbox, delivery tokens, contexts and wait groups, and the admission of workers while shutting down.
- Progress: only safety is proved, no fairness, and no claim that a delete write finishes inside its lease, because the lease is checked before the payload lock is taken.
- One live command per deployment is not claimed: a concurrent process can queue after a supersession.
- Outbox documents are sequences of records: JSON, the size limit of 256 KiB, permissions and the temporary file are reduced to the three ways a persist can end.
- Strings hold one char per byte; trimming and case folding are those of ASCII text.
- Templates.ExtractAssets: reads the two template tables; BIOPHOTO rows are left out, whose format depends on content detection.
- Photo detection and SHA-256, including the digest checks of a fetched payload.
- CatchUp.NothingIsSkipped: takes from the ZKBioTime server that it only appends ids and that a page is ascending, above the cursor asked for and without holes at the time it is fetched; the agent asks for this order and does not check it.
- Attendance.Cloud.HandleUpload: takes as parameters the parser of one line and whether reading the body failed, and from the cloud that it confirms a request only when all its rows are committed; nothing is assumed of its other answers.
- GenericQueue.ReportedAtMostOnce: the results of valid deployment and deletion references belong to the secret lifecycle and are reported through the outbox.
- Capture and import correlation, the translation of generic commands for TA PUSH, and the parsing of generic acknowledgements.
- HTTP, TLS, HTML scraping, configuration, logging and redaction, self-update and platform files.
