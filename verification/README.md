# Barbershop booking engine

A Dafny model of the transactional core of a barbershop booking service, with proofs of
what it promises. The model covers five parts that depend on each other:

- **Booking commands** (create, cancel, reschedule, complete, no-show). Each claims an
  idempotency receipt, locks its barber, reads again under the lock, checks its guards,
  writes the booking and appends one audit and one outbox row, all in one transaction.
- **Schedule and service edits**, which lock the branch and all its barbers, write a row and
  re-check every future booking.
- **Calendar arithmetic**: conversion between a branch's wall clock and UTC across clock
  changes, and the question whether a visit fits a shift.
- **Availability**, the read-only list of free slots, which has to agree with create.
- **Outbox delivery** by leased workers, and the cursor feed of the integration.

## How it is laid out

`Base`, `Calendar` and `Schedule` hold values and time. `Model` holds the rows and the
commands; `Commands` gives each committed execution as a function of the rows it starts
from. `Database` runs the same commands as statements over tables updated in place, with
savepoints, rollback and the retry loops, and proves each method equal to its function.
`Invariants`, `Lifecycle`, `Editing`, `Acceptance` and `Idempotency` prove what single
executions and whole serial runs do. `Transactions` is the interleaving machine: any number
of transactions, each step a lock, a read, a write, a check, a commit or an abort;
`Serializability` proves that it behaves like the serial runs, `Concurrency` draws the
consequences for every state, and `Solo` shows that nothing is lost. `Availability` is the
list of free slots and `SkippedDate` the case where it disagrees with create. `Delivery` is the
outbox worker, `Workers` the machine of any number of workers, `Termination` says how often a
delivery is attempted and `Draining` that deliveries end. `Feed` is the integration's cursor feed.

Instants and wall-clock readings are integers counting microseconds. A zone is a finite list
of UTC transitions; the theorems ask that every stretch between two transitions be longer
than any change of offset (`WellSeparated`), an assumption about the zone data. The range of
representable dates is not modelled. Clocks, random ids and secrets are inputs: a `Draw`
carries the readings of one execution, and clocks of the database, of the application and of
workers are not assumed to agree. Digests are injective and ciphertexts invertible.
That an assignment names a service of its own branch, which the code checks when the assignment
is entered (`src/barbershop/catalog/models.py:122-125`), is part of the table constraints. Ids are
integers; their order stands for the database's order of UUIDs, and external ids of the feed
are compared character by character.

Rows exist as maps keyed by their unique constraints, so that "inserting twice fails" and
"one row per key" are statements about keys. A wait for a row lock and the wait for a rival
transaction's unique insert are the same thing in the machine: an entry of the lock table.

## Where the code and its documentation differ

- `docs/architecture/yandex-integration.md:81` describes full jitter, a cap of five minutes
  and parking after 24 hours. The code has no jitter and no time limit, and its cap of 300
  seconds is never reached (`Delivery.BackoffBelowCap`).
- `docs/adr/0004-outbox-and-sync.md:11` asks for delivery serialized by booking. The code
  orders rows by availability and id only.
- `docs/architecture/booking-flow.md:46` says that visit commands take no branch lock. The
  code's `select_for_update().select_related("branch")` locks the branch row as well, after
  the barber (`src/barbershop/booking/cancellation.py:98-102`), the reverse of the edits'
  order. The machine leaves this extra lock out, so it allows more interleavings than the code.
- Availability skips a date that cannot be evaluated while create raises, so a published
  slot need not be bookable; `Availability.OpenSlotIsBooked` gives the exact condition and
  `SkippedDate.PublishedSlotRaises` a concrete case.
- The attempt limit of 20 can be passed, because a claim never looks at it. It holds exactly
  in the runs in which no claim takes over the lapsed lease of a row that already has 20
  attempts (`Termination.LimitHoldsExactly`); `Termination.LapsingLeasesPassEveryLimit` gives
  runs that pass it by any amount.

## Model

| member | source | states |
|---|---|---|
| Calendar.LocalToUtcByFolds | src/barbershop/schedule/calendar.py:14-38 | The loop that tries both folds and collects the candidates that round-trip yields exactly the case analysis the theorems below are about, each of the four errors included. |
| Calendar.ExactInverse | src/barbershop/schedule/calendar.py:18-38 | In a zone with well-separated transitions, conversion without a fold returns the only instant showing the wall time, says "does not exist" exactly when none does, and demands a fold exactly when two different instants do. |
| Calendar.FoldSelects | src/barbershop/schedule/calendar.py:28-38 | With a fold, the earlier (0) or later (1) of two instants is chosen, a fold that is neither is refused, and a fold other than 0 for a unique wall time is refused. |
| Calendar.OrderAgrees | src/barbershop/schedule/calendar.py:14-38 | If one reading is shown only once, wall-clock order and UTC order agree, although the clock as a whole is neither monotone nor injective. |
| Calendar.OffsetInForce | src/barbershop/schedule/calendar.py:14-38 | The wall clock is UTC moved by the offset of the last transition that has taken place, or by the initial one before the first. |
| Schedule.IntervalsArePositive | src/barbershop/schedule/calendar.py:41-50 | The guard against shifts that are not positive in UTC can never fire: an evaluated shift starts before it ends, overnight shifts and clock changes included. |
| Schedule.FitFromRows | src/barbershop/schedule/policy.py:12-71 | The verdict from the rows alone: it raises exactly if hours of the visit's date or of the day before begin or end at a wall time not shown exactly once, and otherwise the visit fits exactly if such hours contain it; hours are those of a replacement of that date, or of active rules of its weekday when no exception of any kind has that date. |
| Schedule.TwoDatesSuffice | src/barbershop/schedule/policy.py:53-71 | When both dates evaluate, looking only at them finds hours that contain the visit if and only if hours starting on some date at all do, told from rules and exceptions. |
| Schedule.OvernightVisitNeedsYesterday | src/barbershop/schedule/policy.py:60-67 | A concrete overnight shift: the day before cannot be left out of the window. |
| Acceptance.StaffedOrNot | src/barbershop/schedule/policy.py:53-71 | The same verdict over all rules and exceptions in the tables, for one branch and barber. |
| Acceptance.CreateExactly | src/barbershop/booking/services.py:103-180 | Everything a first create comes to: which exception is raised for what is missing or wrong, for a date that cannot be evaluated, and for a visit no hours of any date contain; SLOT_CONFLICT exactly when only another non-cancelled visit of the barber, in any branch, overlaps; an integrity error only for a repeated booking id or secret; otherwise the whole stored row, the token and the answer. |
| Acceptance.RescheduleExactly | src/barbershop/booking/rescheduling.py:98-181 | Everything a first reschedule comes to, told from the row: scope, STATE_CONFLICT, VERSION_CONFLICT, the no-op, RESCHEDULE_CLOSED, TIME_RULE_VIOLATION, a date that cannot be evaluated, SLOT_CONFLICT, or the move, each exactly when; every error carries the booking's id and true version, the no-op its status and version, and only the move writes a booking. |
| Acceptance.CancelExactly | src/barbershop/booking/cancellation.py:97-160 | Everything a first cancellation comes to, with the code, id and version of each answer: what is cancelled stays so as a no-op, and a row is cancelled exactly if it is confirmed, of the expected version and before its start, by two hours unless overridden. |
| Acceptance.OutcomeExactly | src/barbershop/booking/outcomes.py:101-159 | Everything a first completion or no-show comes to, with the code, id and version of each answer; it is recorded exactly if the principal may, the row is confirmed and of the expected version, and the visit is over. |
| Acceptance.ClosedDatesStayEmpty | src/barbershop/schedule/policy.py:26-30 | Where an exception closes the visit's date and the day before, no create and no reschedule books there, whatever the weekly rules say. |
| Availability.StartRules | src/barbershop/booking/services.py:70-83 | The start rules hold exactly for an aware instant at least the lead time ahead, at most the horizon's local dates ahead, and a whole number of grid steps after local midnight. |
| Invariants.StepKeeps | src/barbershop/booking/services.py:103-180 | Every command, edit and housekeeping step keeps the whole invariant: constraints, disjoint visits, faithful journal, outcomes only after the end, every future visit inside the committed schedule, no receipt left PROCESSING. |
| Invariants.RunKeeps | src/barbershop/booking/models.py:55-84 | Over every run of commands, edits, redactions and revocations, in any order, the invariant holds at every later clock. |
| Invariants.EditKeepsFit | src/barbershop/schedule/services.py:66-71 | An accepted schedule edit leaves every non-cancelled booking from now on inside the new schedule, in every branch and for every barber. |
| Lifecycle.EditReportsConflicts | src/barbershop/schedule/services.py:31-53 | Everything a validated schedule edit comes to: LocalTimeFailure exactly if an upcoming non-cancelled booking of that branch and barber cannot be judged; otherwise a conflict listing exactly the bookings the new schedule would strand, ascending and without repetition, exactly if there is one; otherwise it commits and all of them fit. What is not committed changes nothing. |
| Editing.RunKeepsOrder | src/barbershop/schedule/models.py:20-101 | Over every run each rule, exception and service row satisfies its validation and uniqueness constraints. |
| Editing.ValidatedExactly | src/barbershop/schedule/services.py:60-69 | Which edits pass validation: a missing row, a field that may not be edited and a row that would break its constraints or repeat another are refused, in this order; every other edit writes its row with exactly the requested fields set. |
| Lifecycle.JournalTellsTheRow | src/barbershop/journal/services.py:28-52 | For every id the audit versions are 1..version of its booking once each, read CREATED, RESCHEDULED*, and at most one final change; folding them gives the current status; the outbox holds exactly the same changes with matching payloads, and an id without a booking has entries in neither. |
| Lifecycle.OneEntryPerChange | src/barbershop/journal/services.py:12-53 | A command that changes something adds exactly one audit row and one outbox row, with the stated actor, reason and payload, at the version it answers; refusals, no-ops and replays add nothing. |
| Lifecycle.NoIntegrityError | src/barbershop/journal/models.py:29-34 | With a fresh id and secret no command ever fails on a check, journal or token constraint: the unique constraints of the journal never fire. |
| Lifecycle.RescheduleConflictKeepsTheRow | src/barbershop/booking/rescheduling.py:154-167 | A reschedule answered SLOT_CONFLICT leaves every row as before and reports the row's true version, although the loaded object was already changed; and another visit of the barber really overlaps. |
| Lifecycle.ChangesInTime | src/barbershop/booking/cancellation.py:109-145 | Whatever changes an existing row was the right command on a confirmed row of the expected version, in time: cancellations before the start (two hours without override), outcomes after the end, moves before the start to a valid start. |
| Lifecycle.RunEvolves | src/barbershop/booking/models.py:30-53 | Over every run no booking disappears, no version goes down, branch, barber, service and snapshots never change, and a row that has left CONFIRMED never changes again. |
| Idempotency.AtMostOnce | src/barbershop/idempotency/services.py:99-158 | Over every run of retries, replays, expiry and removal, one (scope, operation, key) commits its effect at most once, and never once a receipt exists. |
| Idempotency.KeysAreShared | src/barbershop/idempotency/services.py:42-54 | Two commands share a receipt exactly if key, business, principal, channel, target and kind of command agree, completions and no-shows being two kinds. |
| Idempotency.FirstUseIsExecuted | src/barbershop/idempotency/services.py:99-141 | In any run that starts without receipts a command that no earlier one shares all of this with is executed on the rows it finds, and is never answered as replayed, conflicting or expired. |
| Idempotency.LaterUsesOfAKey | src/barbershop/idempotency/services.py:127-139 | After a committed command, exactly: the same key with another payload conflicts; the same payload gets the first answer if its clock is within 30 days and nothing in between removed the result, and "expired" otherwise; none of these change anything. Secrets, sessions and correlation ids are no part of a payload. |
| Idempotency.RedactionUnobservable | src/barbershop/privacy.py:13-37 | Inserting a redaction anywhere in a run changes no answer of any later command whose clock is not before its moment, and no row but receipt bodies and redaction records. |
| Idempotency.RedactionIdempotent | src/barbershop/privacy.py:13-37 | In every state any run reaches, redacting again, at the same or an earlier moment, does nothing, and every receipt it tombstones gets exactly one redaction record. |
| Idempotency.ReplayedTokenAuthorizes | src/barbershop/identity/tokens.py:43-69 | While a create can still be answered again, the token in the answer decrypts to the first secret and still authorizes the booking from the first session, if the first transaction took under 60 days. |
| Idempotency.TokenAuthorizesExactly | src/barbershop/identity/tokens.py:43-62 | Over any run after a create its booking is opened by the first secret in the first session until a revocation over 90 days after the token was stored, and by no other secret, in no other session, and never after that. |
| Serializability.SerializableInCommitOrder | src/barbershop/booking/services.py:86-180 | Every interleaving of creates, cancellations, reschedules, outcomes, schedule edits and service edits, at the granularity of lock, read, write, check and commit, ends in the rows and answers of running the committed ones one at a time in commit order. |
| Serializability.CommitIsAtomic | src/barbershop/booking/rescheduling.py:98-167 | What a visit command has decided from reads made at different moments is, when it commits, one atomic execution on the rows of that moment. |
| Serializability.EditIsAtomic | src/barbershop/schedule/services.py:60-71 | The same for an edit: its validation and re-check still hold of the rows it is committed to. |
| Serializability.LocksEveryAssigned | src/barbershop/catalog/services.py:12-22 | An edit that has finished locking holds the lock of every barber with an assignment, active or not, in its branch. |
| Serializability.StoredRespectsLocks | src/barbershop/booking/services.py:134-172 | What a visit command writes touches nothing that the locks of another transaction protect. |
| Serializability.PatchRespectsLocks | src/barbershop/catalog/services.py:31-46 | What an edit writes touches nothing that the locks of another transaction protect. |
| Serializability.EditStable | src/barbershop/schedule/services.py:60-71 | Rows changed by others outside an edit's locks leave all it has read, validated and checked as it was. |
| Concurrency.ReadsStayCurrent | src/barbershop/catalog/services.py:14-22 | In every state of every interleaving, what a live transaction has read about its barber, the shifts of each of its two schedule dates, the edited row and its branch or the bookings to re-check is what the same query would return now (excepted a create for a barber without any assignment in the branch, which is refused whatever it read). |
| Concurrency.DecisionsAreAtomic | src/barbershop/schedule/services.py:31-53 | Refusals are as atomic as commits: the missing row, the invalid field or the conflicts an edit raises, and the error a visit raises, are those of running it whole at that moment, with the same exception; a create for a barber without assignment in the branch is raised both ways. |
| Concurrency.EveryStateIsSafe | src/barbershop/booking/services.py:131-156 | In every state of every interleaving: future visits fit the committed schedule, visits of one barber are disjoint, ends match the snapshot durations, unfinished visits are confirmed, no receipt is PROCESSING, the journal is faithful. |
| Concurrency.InterleavingsEvolve | src/barbershop/booking/models.py:30-53 | Between the start and any state of any interleaving no booking's past is rewritten. |
| Concurrency.PerformedOnce | src/barbershop/idempotency/services.py:102-125 | No two entries of a commit log performed a command under the same key. |
| Solo.LoneCommandCommits | src/barbershop/booking/services.py:86-180 | The machine is not empty: a visit command the rows would answer can be scheduled, step by step, to its commit with exactly that answer. |
| Solo.LoneEditCommits | src/barbershop/schedule/services.py:56-71 | The same for an edit, through branch lock and every barber lock in ascending order. |
| Database.Database.SaveBooking | src/barbershop/booking/services.py:134-156 | A write under a savepoint: stored if no constraint objects, otherwise undone, telling the exclusion constraint from all others. |
| Database.Database.AppendBookingChange | src/barbershop/journal/services.py:12-53 | Appends one audit entry and one outbox event, or reports the unique constraint that objects. |
| Database.Database.InsertNewBooking | src/barbershop/booking/services.py:134-180 | Insert under a savepoint, journal, and token: an excluded slot answers SLOT_CONFLICT with nothing written, any other violation raises. |
| Database.Database.MoveBooking | src/barbershop/booking/rescheduling.py:154-181 | The loaded object is moved, then saved under a savepoint and journalled; an excluded slot undoes the save and answers with the expected version. |
| Database.Database.CloseBooking | src/barbershop/booking/cancellation.py:143-160 | Status and version are set on the loaded object, saved, and journalled. |
| Database.Database.CreateEffect | src/barbershop/booking/services.py:86-180 | The statements of a create leave the rows and the result of its specification, or raise its exception. |
| Database.Database.RescheduleEffect | src/barbershop/booking/rescheduling.py:90-181 | The same for a reschedule, which changes the loaded object before the save that may be undone. |
| Database.Database.CancelEffect | src/barbershop/booking/cancellation.py:79-160 | The same for a cancellation. |
| Database.Database.OutcomeEffect | src/barbershop/booking/outcomes.py:94-159 | The same for completion and no-show. |
| Database.Database.ExecuteIdempotent | src/barbershop/idempotency/services.py:88-158 | Claiming the receipt, running the effect and storing the result is one atomic execution; an exception rolls back the claim too. |
| Database.Database.WithRetries | src/barbershop/booking/services.py:212-244 | The retry loop: the whole transaction again after a deadlock or serialization failure, at most three times and before the deadline, on whatever rows other transactions have left meanwhile; other faults end it at once. |
| Database.RetriesPerformOnce | src/barbershop/booking/services.py:219-244 | Whatever faults interrupt the attempts, before or after their commits, and whatever others commit between them, the call is a serial run in which its key is performed at most once; an answer it returns is the one the stored receipt holds; without a receipt nothing was performed. |
| Database.RetriesExactly | src/barbershop/booking/services.py:219-244 | How a call ends: each attempt before the deciding one runs once and is tried again exactly after a deadlock or serialization failure with time left; the deciding one returns its answer or exception, tells the caller to retry after such a failure or a timeout, and passes other faults on. |
| Database.Database.Submit | src/barbershop/booking/cancellation.py:194-235 | The checks before the transaction, then the retries; a failed check changes nothing. |
| Database.SubmitChecksFirst | src/barbershop/booking/cancellation.py:50-76 | Which calls are refused before any transaction, and with what: a version below one, another target or business, a start without zone, a reason too long, an override without reason or without authority, an outcome without permission. |
| Database.PrecheckStays | src/barbershop/booking/cancellation.py:62-76 | Authorization checked before the transaction stays valid over any run of commands and edits that comes between. |
| Database.PrecheckedIsInScope | src/barbershop/booking/rescheduling.py:60-74 | Hence the same checks inside the transaction never fail for a command that passed them outside. |
| Database.Database.EnsureFutureBookingsFit | src/barbershop/schedule/services.py:31-53 | The loop over future bookings in id order reports all misfits, or the first schedule date it cannot evaluate. |
| Database.Database.UpdateScheduleRule | src/barbershop/schedule/services.py:56-71 | Setting fields, validating, saving and re-checking is the edit's specification; a conflict rolls the rule back. |
| Database.Database.UpdateScheduleException | src/barbershop/schedule/services.py:74-95 | The same for a dated exception. |
| Database.Database.UpdateServiceOffering | src/barbershop/catalog/services.py:25-46 | The same for a service, which re-checks no bookings. |
| Database.Database.RedactExpiredReceipts | src/barbershop/privacy.py:12-37 | The loop tombstones exactly the results expired by the moment, records each, and counts them. |
| Database.Database.ReplaceResultWithTombstone | src/barbershop/idempotency/services.py:161-182 | Removes a stored result and keeps the command's identity. |
| Database.Database.RevokeOldManagementTokens | src/barbershop/privacy.py:40-46 | Deletes exactly the tokens older than 90 days and counts them. |
| Availability.IntervalsStartingOn | src/barbershop/schedule/policy.py:12-50 | The intervals of one date contain a visit exactly when its hours, told from rules and exceptions, do; it raises exactly when some hours of the date cannot be converted. |
| Availability.CandidateStarts | src/barbershop/booking/availability.py:94-107 | Walking the local grid of a date yields each convertible grid instant of that date once, and nothing else. |
| Availability.ScheduleIntervals | src/barbershop/booking/availability.py:77-91 | The collected intervals contain a visit exactly when hours of one of the two dates do, dates that raise being skipped. |
| Availability.Candidates | src/barbershop/booking/availability.py:114-153 | The nested loops over assignments, dates and grid starts collect each candidate slot of the query once, and nothing else. |
| Availability.WithoutBusy | src/barbershop/booking/availability.py:155-178 | Filtering against the bookings prefetched for the window of all candidates removes exactly the slots some non-cancelled visit of the barber, in any branch, overlaps. |
| Availability.ListAvailableSlots | src/barbershop/booking/availability.py:110-179 | The query errors, or the strictly increasing list of the first `limit` open slots; an open slot is missing only if the list is full of earlier ones. |
| Availability.QueryAnswered | src/barbershop/booking/availability.py:48-69 | A query is answered exactly if its dates, limit, scope and horizon are in order, and otherwise the first fault is named. |
| Availability.ListedInOrder | src/barbershop/booking/availability.py:40-45 | The list is ordered by start, then barber, then service, and repeats none. |
| Availability.FirstOpenIsUnique | src/barbershop/booking/availability.py:179-179 | The list is canonical: rows, clock and query determine it. |
| Availability.ListedSlotsAreNear | src/barbershop/booking/availability.py:48-69 | No more slots than asked for and at most 500, of the barber and service asked for, within 31 dates, none before the lead time or after the horizon. |
| Availability.OpenSlotIsBooked | src/barbershop/booking/availability.py:132-178 | Soundness, exactly: with rows and clock unchanged an open slot submitted to create is booked to the same end, unless one of its two dates does not evaluate, and then it raises. |
| Availability.BookedSlotIsOpen | src/barbershop/booking/availability.py:132-178 | Completeness: what create would book, at an unambiguous wall time within the query's range and filters, is an open slot. |
| Availability.ListAgreesWithCreate | src/barbershop/booking/availability.py:110-179 | Both directions for the published list: a listed slot whose dates evaluate is booked; a bookable one is listed unless the list is full of earlier slots. |
| SkippedDate.PublishedSlotRaises | src/barbershop/booking/availability.py:85-91 | Concrete rows satisfying every constraint and a query whose published list, whichever way it is computed, holds a slot for which create raises, because the list skips a date that cannot be evaluated. |
| Delivery.Deliveries.ClaimNext | src/barbershop/journal/delivery.py:32-63 | Inserts the missing rows, then claims the first ready unlocked one in the order of availability and id. |
| Delivery.Deliveries.Acknowledge | src/barbershop/journal/delivery.py:66-82 | The conditional update: delivered only while the caller's own lease still runs. |
| Delivery.Deliveries.Fail | src/barbershop/journal/delivery.py:85-107 | Releases the caller's own claim, pending again after the backoff or parked at the attempt limit; anyone else's call changes nothing. |
| Delivery.Deliveries.DeliverOne | src/barbershop/journal/delivery.py:110-121 | One claim, one transport call, then acknowledgement or failure. |
| Delivery.Deliveries.RunWorker | src/barbershop/journal/delivery.py:124-134 | The worker loop is the sequence of its turns. |
| Workers.EveryStateIsSound | src/barbershop/journal/delivery.py:33-107 | In every state of any number of workers with arbitrary clocks: owner and lease exactly while PROCESSING, the lease 30 and the longest wait 256 seconds from the last change, PENDING below and PARKED at 20 attempts, DELIVERED only after the transport call of the latest owner returned, one row per event and destination. |
| Workers.Fencing | src/barbershop/journal/delivery.py:66-107 | Whatever the clocks say, answering changes exactly the worker's own row, exactly while it is PROCESSING under its latest claim, and an acknowledgement only within 30 seconds of that claim. |
| Workers.SupersededOwnerIsInert | src/barbershop/journal/delivery.py:66-94 | A worker whose claim has been superseded changes nothing at all by acknowledging or failing. |
| Workers.RunKeepsRow | src/barbershop/journal/delivery.py:66-107 | Over every run rows persist, and delivered and parked rows never change again. |
| Workers.OneRowPerEvent | src/barbershop/journal/delivery.py:35-42 | An event committed before a claim has exactly one row for that destination, in that state and ever after. |
| Delivery.BackoffBelowCap | src/barbershop/journal/delivery.py:101-101 | The wait is 1, 2, 4, ... and from the eighth attempt on 256 seconds: the cap of 300 is never reached. |
| Workers.AnswersExactly | src/barbershop/journal/delivery.py:66-107 | In every reachable state an answer of the latest owner of a processed row delivers it within 30 seconds of the claim, or releases it: pending again exactly the backoff later below 20 attempts, parked from 20 on; every field is given, and every other answer writes nothing. |
| Workers.FailureBacksOff | src/barbershop/journal/delivery.py:97-106 | Over every run after such a failure the row stays as it is until a claim whose clock is at least the backoff later. |
| Workers.ClaimsExactly | src/barbershop/journal/delivery.py:33-62 | A claim gives every event without a row a pending one, and takes only an unlocked row of its destination that is pending and due or has a lapsed lease, with one more attempt and a lease of 30 seconds; it writes nothing else. |
| Workers.ClaimTakesAReadyRow | src/barbershop/journal/delivery.py:43-54 | A ready row nobody has locked is claimed, unless one that became available earlier is, possibly one this very claim has inserted. |
| Termination.LimitPassedExactly | src/barbershop/journal/delivery.py:45-60 | Among rows of at most 20 attempts the one step that takes a row past 20 is a claim that picks that very row while it has 20 attempts and a lapsed lease. |
| Termination.LimitHoldsExactly | src/barbershop/journal/delivery.py:45-60 | The attempt limit holds in every state of a run if and only if no claim of the run takes over the lapsed lease of a row that already has 20 attempts. |
| Termination.LapsingLeasesPassEveryLimit | src/barbershop/journal/delivery.py:45-60 | And then nothing bounds it: for every n there is a run that claims one row n times, because only failing looks at the limit. |
| Termination.PunctualIsPrompt | src/barbershop/journal/delivery.py:57-82 | If every claim that took a row is answered by its own worker before its lease lapses, no claim of the run ever takes over a lease. |
| Termination.PunctualRunsAreBounded | src/barbershop/journal/delivery.py:57-101 | In such a run an event is sent at most 20 times per destination and its row changes at most 40 times, after which it is delivered or parked. |
| Termination.MeasureFalls | src/barbershop/journal/delivery.py:33-107 | The changes still ahead, summed over all events of a destination, never rise except by 40 for a new event, and fall with every claim that takes a row and every answer that changes one, as long as no lease is taken over. |
| Termination.PunctualRunsMakeFiniteProgress | src/barbershop/journal/delivery.py:33-107 | Hence claims and answers that change a row are at most 40 for each event, any number of workers together, when claims are answered in time. |
| Termination.EmptyClaimMeansDone | src/barbershop/journal/delivery.py:35-56 | A claim that comes back empty, 256 seconds after the last change of every row and with nothing locked, means that every event is delivered or parked. |
| Draining.DeliveriesEnd | src/barbershop/journal/delivery.py:95-134 | A worker whose turns are answered in time and 256 seconds apart ends every delivery: whatever rows it finds pending and whatever events appear while it works, 20 turns for each event after the last one deliver or park them all. Delivered are exactly the rows whose transport call returned; a parked row has used exactly 20 attempts. |
| Draining.TurnIsSteps | src/barbershop/journal/delivery.py:110-121 | A turn of the worker loop is a run of the interleaving machine: the claim, the transport call and the answer of one worker. |
| Feed.FeedListsEverything | src/barbershop/integration/reads.py:27-49 | Following the cursor from the start terminates, and for every page size of at least one the pages are the whole sorted list, each id once, exactly when no id is empty. |
| Feed.PageIsPrefix | src/barbershop/integration/reads.py:27-49 | A page is the next `count` ids after the cursor, `hasMore` tells whether there are more, and its cursor leads to exactly the rest. |
| Feed.ChangingFeed | src/barbershop/integration/reads.py:27-49 | Even if mappings come and go between requests, no id is listed twice and one that stays is listed. |
| Feed.EmptyPagesStall | src/barbershop/integration/reads.py:35-47 | A page size of zero would promise more and give no cursor. |

## Left out

- HTTP views, serializers, sessions, settings, the rate limiter, health and observability: transport and counters.
- The role policy: `permitted` tells whether the principal may mark an outcome, and the match of principal and scope (`src/barbershop/booking/outcomes.py:55-60`) is not modelled.
- Trimming of cancellation reasons: a reason is taken as already stripped.
- The digests, canonical JSON and encryption themselves; an expired and a removed result raise the same error with different texts, which is one error here.
- PostgreSQL beyond row locks, unique inserts that wait, savepoints and the exclusion check; in particular the append-only triggers and the range trigger.
- Deadlock freedom: not claimed. A deadlock, a timeout and a crash are an `Abort` of one transaction.
- Wall-clock deadlines, sleeps and lock timeouts: whether an attempt fails and whether time is left are inputs of each attempt.
- The interleaving machine has no steps for redaction, token revocation, direct tombstoning or delivery; in the serial runs the first three may come anywhere, and delivery has its own machine.
- The machine lets a command read row and clock in any order under its barber's lock and locks written rows at the write; the code is one of these orders.
- Row order of a date's rules and of assignments: unobservable through `any(...)` and the final sort, so sets.
- `intervals_for_date`, the other integration projections and direct changes of assignments, barbers, branches or time zones, which no command performs.
- Column widths: versions, durations and attempt counts are unbounded integers, so a claim past the width of the attempts column does not fail.
- Gaps in the id sequence left by ignored bulk inserts: new delivery rows only get larger ids.
- The wait between a worker's turns, and transport calls that raise anything but a transport error: the worker then crashes.
- Database.Database.WithRetries: does not model the randomized pause, because it changes no row.
- Draining.DeliveriesEnd: is about one worker at a time and supposes that it comes back, because nothing in the code makes it; for several workers `Termination.PunctualRunsMakeFiniteProgress` and `Termination.EmptyClaimMeansDone` say that work ends and when nothing is left.
