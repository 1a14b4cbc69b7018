# Verification of the invoicing platform's stateful core

This project models, and proves properties of, the parts of the platform where correctness spans
several operations: the two-way synchronisation of invoices and contacts with Zoho Books, the ledger
of one invoice (gateway attempts, webhooks, staff payments, check reviews, cancellation), sign-in
lockout, set-password links, user administration, the bounded-concurrency map, the tax and fee lines
that a pushed invoice carries to Zoho and back, and the escaping and emphasis of the receipt email.

How it is modelled:

- Services that change rows are classes with those rows as fields and methods in source order. A
  scoped transaction (`withScope`) is one method; a refusal or a thrown error puts the rows back.
  `withoutScope` is not a transaction, so its statements are separate steps where that matters.
- Where the code reads in one transaction and writes in another, or where requests overlap, the same
  operations are steps of a state machine (`LedgerRuns`, `Lockout`, `PasswordReset`, `SyncProtocol`,
  `BackfillRuns`, `BoundedMap`) and the theorems quantify over every schedule of those steps.
- In `LedgerRuns` every operation on an invoice is a read and a later write: webhooks read unscoped and
  write scoped, and no other operation locks what it reads, so the theorems hold whatever lands between.
- Time is one clock with increasing ticks. Amounts are exact integers in minor units.
- The guard table, the role ranks, money formatting and the line building of the Zoho adapter are
  the repository's own (`invoice-status.ts`, `roles.ts`, `money.ts`, `zoho-books.adapter.ts`).

`dafny verify dfyconfig.toml` checks the whole project.

## What turned out false, and exactly when it holds

- A pull decides on a stored version and writes in a later transaction, so an update can be lost for
  good. Exactly one kind of step leads there: a header write that puts an older version over the current
  one, which some cursor or running pull already relies on and whose failure is not on record
  (`SyncProtocol.WriteUnholdsIff`, `SyncProtocol.StepKeepsIff`, `SyncProtocol.AlwaysCoveredIff`). With
  no such step nothing is lost, whatever overlaps (`SyncProtocol.NoLostUpdate`); right after one, pulls
  that write nothing can lose the record (`SyncLosses.LosingWriteCanLose`, and exactly
  `SyncLosses.CoveredIffNothingLost`). One writer per record at a time rules it out
  (`SyncWriters.OneWriterLosesNothing`), and so would a header's write conditional on the stored version
  (`SyncGuards.ConditionalWritesLoseNothing`). From every state with an outdated write pending, pulls
  alone can lose the record (`SyncWriters.OutdatedWorkCanLose`);
  `SyncRaces.OverlappingWritersLoseAnUpdate` is one such run from the start.
- A pull is meant to read back nothing the platform wrote itself. It passes its check of an invoice
  nobody else edited exactly when an own write since the stored version was left unstamped: one that
  stamps nothing here (a payment applied, or a push whose job failed after Zoho had taken it), a push
  whose time could not be read back, or a push overtaken by an older pull's write
  (`SyncEchoes.CheckPassesIff`). The commonest run does it: issue, push, settle, push the payment, pull
  (`SyncRaces.PaymentPushIsReadBack`). Past that check a pull rewrites a row for no such reason exactly
  when the row already held Zoho's version (`SyncEchoes.RewritesAreExplained`), which one writer per
  record and pushes apart from pending writes rule out (`SyncLines.PullsRewriteOnlyForeignEdits`).
- A stamped push hides the latest foreign edit for good if and only if no pull had stored it before and
  no pull was past its check of the record at the push (`SyncMasks.PushHidesIff`): a pending pull stores
  the edit after the push (`SyncMasks.PushDoesNotMask`) or puts the version back so that the next pull
  reads on.
- The comment before the line-item refresh promises that a current version never stands beside stale
  line items. Over any run it holds if and only if no refresh stores line items older than the stored
  version and no header is written newer than the stored line items (`SyncLines.LinesNeverBehindIff`). A
  push between a targeted pull's fetch and its refresh breaks it, for good if the header then fails
  (`SyncRaces.TargetedRefreshLeavesOldLines`). One writer and separate pushes are enough
  (`SyncLines.SeparateWritersKeepLines`); both writes conditional on what is stored would be too
  (`SyncGuards.ConditionalWritesKeepLines`).
- A backfill creates every Zoho record at most once under every schedule if and only if no two
  unsynced payments share an unsynced invoice and no two unsynced invoices share an unsynced customer
  (`BackfillTargets.ExactlyOnceIff`). The source comment names only the first shape.
- Line items survive a push and a pull if and only if no line looks like one the push adds, no line
  total is a negative exact half, and every line is exempt or the tax rate is synced
  (`InvoiceDetail.LinesRoundTripIff`): without a synced rate every line comes back tax exempt.
- Subtotal, tax and rate of an invoice return from a push and a pull if and only if its lines do not
  drift, what is read back as tax is what was left to Zoho to compute, and the rate is the nearest to
  the quotient (`InvoiceDetail.MoneyReturnsIff`); with ordinary lines the drift is the number of
  negative exact halves (`InvoiceDetail.RealMoneyReturnsIff`).
- The comment on pushing says the pushed total still reconciles exactly; with the tax left to Zoho it
  does if and only if no line total is a negative exact half and the fee is not negative
  (`InvoiceDetail.PushedTotalReconcilesIff`).
- The recovered tax rate equals the applied one for every rate if and only if the subtotal is at
  least 10,000 minor units (`InvoiceDetail.EveryRateSurvivesIff`).
- An invoice that reappears in Zoho gets back the row it had if and only if its link was live or no
  scan had missed it (`InvoicePresence.ReappearingRestoresIff`).
- A decline returns the invoice to its status before the attempt; the recorded previous status is
  cleared if and only if the attempt did not itself start from PENDING_PAYMENT
  (`PaymentAttempts.DeclineRoundTrip`).
- The payment row converges under every delivery order; the invoice converges exactly under a condition
  on the latest event that would apply, on the other events that would, and on the recorded previous
  status (`InvoiceConvergence.ReachableInvoiceConvergesIff`). `PaymentAttempts.InvoiceDependsOnOrder`
  is a pair of events that does not. Refund or cancellation events take a settled payment row back to
  PROCESSING (`PaymentAttempts.SettledRowKeptIff`), which the comment on UNKNOWN events sets out to
  prevent.
- The comment on a failed gateway call says the invoice stays in PENDING_PAYMENT; the exception
  leaves the transaction, so the invoice returns to the status it had
  (`LedgerService.InvoiceAccount.CreateIntent`).
- PAID is not final. A step takes an invoice out of it if and only if it is the late write of something
  that read the invoice before: a failure that read it pending and sends it back, an attempt that does
  not itself succeed, or the status of an issue or a first view (`LedgerStatuses.PaidLeftIff`). Over any
  run PAID means nothing owed, both ways, if and only if there is no such write
  (`LedgerStatuses.PaidMeansClearedIff`). From a new invoice, `LedgerRaces.LateFailureUnpays`,
  `LedgerRaces.LateStartUnpays` and `LedgerRaces.LateViewUnpays` end with nothing owed and an open
  status. No money moves: the balance stays zero and no staff payment is added after it.
- A cancelled invoice is revived if and only if something that read it before the cancellation writes: a
  payment by staff that read the same balance, a gateway failure or success the guard accepted on what
  was read, an attempt, an issue or a first view (`LedgerStatuses.CancelledUnlessRaced`).
  `LedgerRaces.LateSuccessRevives` ends such an invoice PAID, and `LedgerRaces.CancelRaceIsReachable`
  partially paid.
- At most five wrong passwords per window holds over every schedule if and only if attempts come one
  at a time (`LockoutTightness.FivePerWindowIff`); with m open at once the least bound is 4 + m
  (`LockoutTightness.LeastBound`), as long as the fifteen minutes have ticks enough for so many entries.
- No user is ever left with two live set-password links if and only if between any two inserted for one
  user the first is invalidated or spent (`PasswordReset.OneLinkEachIff`); two overlapping requests
  leave two (`PasswordReset.OverlappingIssuesLeaveTwoLinks`).
- Two removals of different owners, each counted before the other commits, leave an owner if and only
  if there was a third (`UserAdmin.OverlappingRemovalsKeepAnOwnerIff`); one after the other, the second
  of the last two is refused (`UserAdmin.OverlappingDemotionsLoseEveryOwner`).
- A user becomes brandless exactly when a Brand Admin empties a slice that was all the user had
  (`UserAdmin.BrandlessExactlyWhenSliceWasAll`).
- The bounded map leaves holes exactly when the limit is not positive and there are items
  (`BoundedMap.MapWithConcurrency`).

## Model

| member | source | states |
|---|---|---|
| SyncProtocol.NoLostUpdate | apps/api/src/integrations/zoho-pull.service.ts:302-354 | in every run of edits, pushes, payment pushes and any overlap of scheduled and targeted pulls (failing or not) without the one losing kind of write, whatever Zoho last changed before the cursor is stored at exactly that version or that version's failure is on record |
| SyncProtocol.WriteUnholdsIff | apps/api/src/integrations/zoho-pull.service.ts:1085-1113 | a pull's write makes a stored record stale exactly when it puts an older version over the current one and that one's failure is not on record, and it touches no other record |
| SyncProtocol.StepKeepsIff | apps/api/src/integrations/zoho-pull.service.ts:982-1113 | from any state in which everything relied on is held, a step of any kind keeps it so exactly when it is not such a write on a relied record |
| SyncProtocol.AlwaysCoveredIff | apps/api/src/integrations/zoho-pull.service.ts:929-962 | a run from the start is covered throughout exactly when none of its steps is such a write |
| SyncLosses.LosingWriteCanLose | apps/api/src/integrations/zoho-pull.service.ts:1092-1113 | right after such a write, pulls that write nothing can take the cursor past the newer version, unstored and with no failure on record |
| SyncLosses.CoveredIffNothingLost | apps/api/src/integrations/zoho-pull.service.ts:302-354 | a state is covered exactly when no run without such a write ends with a lost record |
| SyncGuards.ConditionalWritesLoseNothing | apps/api/src/integrations/zoho-pull.service.ts:1092-1113 | with the upsert conditional on the stored version, every run, whatever overlaps, keeps what Zoho last changed before the cursor stored at exactly that version or its failure on record |
| SyncGuards.ConditionalWritesKeepLines | apps/api/src/integrations/zoho-pull.service.ts:1027-1043 | with the refresh conditional as well, line items are never older than the version beside them |
| SyncWriters.OneWriterLosesNothing | apps/api/src/integrations/zoho-pull.service.ts:982-1113 | no run with one writer per record at a time holds one |
| SyncWriters.OutdatedWorkCanLose | apps/api/src/integrations/zoho-pull.service.ts:982-1113 | from every state in which a pull past its check works on an outdated version, pulls alone can leave that version stored, no failure recorded and the cursor past the newer one |
| SyncProtocol.FinishCovers | apps/api/src/integrations/integration-connection.service.ts:248-260 | a pull may move the cursor to its own start because by then everything older is held |
| SyncProtocol.ScanEndsIff | apps/api/src/integrations/zoho-pull.service.ts:935-958 | a scheduled pull's listing may end exactly when it has shown whatever changed since the cursor, and then shows no more |
| SyncProtocol.RemoteWriteKeeps | apps/api/src/integrations/zoho-sync.service.ts:341-357 | an edit or a push at any moment, stamped or not, breaks no pull's obligation |
| SyncProtocol.RefreshKeeps | apps/api/src/integrations/zoho-pull.service.ts:1027-1043 | a line-item refresh stamps no version and leaves the item as due as it was, so a header write that never comes is made up for by the next pull |
| SyncEchoes.CheckPassesIff | apps/api/src/integrations/zoho-pull.service.ts:258-286 | over any run, the check of Zoho's current version of a stored record passes exactly when someone else edited it since the stored version or an own write since was left unstamped |
| SyncEchoes.AheadIff | apps/api/src/integrations/zoho-sync.service.ts:341-357 | and that is exactly when Zoho's version is ahead of the stored one |
| SyncEchoes.RewritesAreExplained | apps/api/src/integrations/zoho-pull.service.ts:1027-1113 | a pull that rewrites a versioned row does so for a foreign edit or an unstamped own write exactly when the stored version is not Zoho's; over the current one it is always a pull overtaken since its check |
| SyncMasks.PushHidesIff | apps/api/src/integrations/zoho-sync.service.ts:343-357 | after a stamped push the latest foreign edit is never stored, however the run goes on without another write in Zoho, exactly when no pull had stored it before and none was past its check of the record |
| SyncMasks.PendingWorkUnmasks | apps/api/src/integrations/zoho-pull.service.ts:982-1113 | from every run with a pull past its check at the push, pulls alone store the edit after all |
| SyncMasks.PushDoesNotMask | apps/api/src/integrations/zoho-sync.service.ts:343-357 | a run from one foreign record whose push lands before a pending pull's write, which then stores the edit |
| SyncEchoes.StoredNeverAhead | apps/api/src/integrations/zoho-pull.service.ts:1054-1064 | a stored version never exceeds Zoho's |
| SyncLines.LinesNeverBehindIff | apps/api/src/integrations/zoho-pull.service.ts:1027-1043 | over any run, stored line items stay as new as the version beside them exactly when no refresh stores older ones than that version and no header is written newer than the stored ones |
| SyncLines.StepKeepsLinesIff | apps/api/src/integrations/zoho-pull.service.ts:1027-1113 | step by step, from any state in which they are |
| SyncLines.LinesNeverBehind | apps/api/src/integrations/zoho-pull.service.ts:1036-1043 | after a run without those two steps, a current version stands beside current line items |
| SyncLines.PushBeforeRefreshLeavesOldLines | apps/api/src/integrations/zoho-pull.service.ts:1040-1043 | from any state with a targeted pull about to refresh, a push and then that refresh leave Zoho's version beside older line items |
| SyncLines.SeparateWritersKeepLines | apps/api/src/integrations/zoho-pull.service.ts:1027-1043 | neither step occurs with one writer per record and stamped pushes apart from pending writes |
| SyncRaces.TargetedRefreshLeavesOldLines | apps/api/src/integrations/zoho-pull.service.ts:1085-1126 | a run from an empty start in which the header then fails, after which the old line items stay under the current version however the run goes on without another write in Zoho |
| SyncLines.SecondPullIsNoOp | apps/api/src/integrations/zoho-pull.service.ts:268-281 | once everything is covered, any further pulls write nothing while nobody edits or pushes |
| SyncRaces.OverlappingWritersLoseAnUpdate | apps/api/src/integrations/zoho-pull.service.ts:982-993 | a run from an empty start, whose scheduled pull's check is the only step to let in a second writer, that leaves an old version stored, no failure recorded and the cursor past the edit |
| SyncRaces.PaymentPushIsReadBack | apps/api/src/integrations/zoho-sync.service.ts:381-435 | issue, stamped push, payment push, pull: the pull passes its check of an invoice nobody else has edited |
| SyncRaces.PushBetweenCheckAndWriteLosesTheEcho | apps/api/src/integrations/zoho-sync.service.ts:343-357 | from any state, a push between a pull's check and its write is no longer recognised as an echo although nobody else edited |
| InvoicePull.FailureIsRetried | apps/api/src/integrations/zoho-pull.service.ts:1000-1043 | a failure at any point stamps no version, changes no header and no other invoice, and is not taken for an echo next time |
| InvoicePull.OutcomeOfPull | apps/api/src/integrations/zoho-pull.service.ts:982-1128 | a listed invoice is skipped exactly when nothing newer is listed, applied exactly when its contact can be had, its currency is one of five, its detail can be read where needed and its number is free, and otherwise ends in its contact's error, its own or its detail's |
| InvoicePull.PullOneForward | apps/api/src/integrations/zoho-pull.service.ts:964-1133 | a timed item moves its version forward and, unless refused, is held at the listed version or a newer one; an untimed one is always applied and leaves no version |
| InvoicePull.PullOneKeepsNumbers | apps/api/src/integrations/zoho-pull.service.ts:1085-1128 | invoice numbers stay unique in the brand, against pulled and locally numbered invoices alike |
| InvoicePull.AppliedHeader | apps/api/src/integrations/zoho-pull.service.ts:1045-1113 | an applied invoice carries Zoho's customer, number, total, balance and version and the status and currency its words stand for, keeps its own card fee, and has subtotal, tax and lines touched only through a detail, fetched or in hand, without the lines a push adds |
| InvoicePull.Brand.PullOneInvoice | apps/api/src/integrations/zoho-pull.service.ts:978-1130 | the imperative pull of one invoice commits exactly what the specification says, in every error case |
| InvoicePull.Brand.PullTolerantly | apps/api/src/integrations/zoho-pull.service.ts:210-231 | a validation, conflict or permanent failure is put on record and passed over; an authentication, transient or unclassified one is returned as it is and not passed over; either way the store is what the pull of the item left |
| InvoicePull.Brand.PullInvoices | apps/api/src/integrations/zoho-pull.service.ts:929-962 | the pages and items in order up to the first failure that ends the phase; success means every page was listed and every item on it dealt with, and no version goes back except of an invoice listed without a time |
| InvoicePull.Brand.PullBrand | apps/api/src/integrations/zoho-pull.service.ts:314-347 | the cursor becomes the pull's start exactly when both phases came through; a page that cannot be listed, or the first failure of an item that is not that record's own, on whatever page, is returned and leaves the cursor where it was |
| InvoicePull.StoppedIff | apps/api/src/integrations/zoho-pull.service.ts:929-962 | a phase is ended by the first page that cannot be listed or the first authentication, transient or unclassified failure of an item, and by nothing else |
| SyncRefinement.CheckRefines | apps/api/src/integrations/zoho-pull.service.ts:982-993 | the imperative pull skips an item exactly when the protocol's check does |
| SyncRefinement.AppliedRefinesWrite | apps/api/src/integrations/zoho-pull.service.ts:1040-1113 | an applied item ends at the version the protocol's check, refresh and write store |
| SyncRefinement.FailedRefinesFail | apps/api/src/integrations/zoho-pull.service.ts:995-1043 | a failed item ends at the version the protocol's failure leaves, before or after the refresh |
| ContactPull.Contacts.PullCustomers | apps/api/src/integrations/zoho-pull.service.ts:492-584 | after a scan without a tolerated failure every listed contact that was unknown, versioned, past the cursor or listed without a time is stored at least as new as listed, or stored at all where an answer gives no time, whatever the cursor |
| ContactPull.Contacts.PullOneCustomer | apps/api/src/integrations/zoho-pull.service.ts:588-696 | one contact: skipped exactly when its version is not newer than the stored one; otherwise stored with Zoho's version, archived exactly when Zoho says inactive, keeping its creation time |
| ContactPull.Contacts.PullTolerantly | apps/api/src/integrations/zoho-pull.service.ts:210-231 | a contact refused for an authentication, transient or unclassified reason ends the scan with that reason, one refused for its own is passed over, and neither is written |
| ContactPull.PageTouches | apps/api/src/integrations/zoho-pull.service.ts:546-584 | a contact that nothing listed is ahead of, judged by the stored version or, without one, by the cursor, is left as it is |
| ContactPull.PageStops | apps/api/src/integrations/zoho-pull.service.ts:505-525 | a page ends the scan exactly when a contact that is to be fetched is refused for a reason not its own |
| ContactPull.ScanStops | apps/api/src/integrations/zoho-pull.service.ts:492-532 | a scan that came through met no such contact on any page that was the first to list it |
| ContactPull.Contacts.PullAndReconcileCustomers | apps/api/src/integrations/zoho-pull.service.ts:454-479 | scan and presence check together, the check free to break off: listed contacts stay dealt with and are active exactly when some entry says so, unlisted ones are archived exactly when the grace is over, and only a contact that cannot be passed over fails the phase |
| ContactPull.NextCheckRepairs | apps/api/src/integrations/zoho-pull.service.ts:470-478 | a check that broke off before either of its writes is made good by the next one over the same report |
| ContactPull.ReconciledMeans | apps/api/src/integrations/zoho-pull.service.ts:718-779 | outside ten minutes from its creation a customer is active exactly when some entry of the report is of that contact and not inactive; an empty scan or the grace changes nothing; repeating the check changes nothing |
| ContactPull.Contacts.ReconcileContactPresence | apps/api/src/integrations/zoho-pull.service.ts:746-778 | the two bulk updates amount to that decision for every row |
| InvoicePresence.MissingSinceRefinesHistory | apps/api/src/integrations/zoho-pull.service.ts:826-914 | over any scans, the flag is the stamp of the earliest past-grace scan in the trailing run without the invoice |
| InvoicePresence.MissingUnlessMissed | apps/api/src/integrations/zoho-pull.service.ts:875-891 | and it is null exactly when there is no such scan |
| InvoicePresence.LinkDeadExactlyWhileMissing | apps/api/src/integrations/zoho-pull.service.ts:818-825 | an invoice whose link was live has a dead link exactly while flagged; its status and everything else never change |
| InvoicePresence.ReappearingRestoresIff | apps/api/src/integrations/zoho-pull.service.ts:898-904 | reappearing restores the row exactly when its link had been live or no scan had missed it |
| InvoicePresence.Invoices.ReconcilePresence | apps/api/src/integrations/zoho-pull.service.ts:838-910 | a failed page or an empty list changes nothing; otherwise every row takes the one-scan step |
| BackfillRuns.CreatedOnceIffDisjoint | apps/api/src/integrations/zoho-sync.service.ts:286-304 | every schedule of the jobs' separate check, create and store steps creates each record at most once exactly when no two jobs share a record |
| BackfillRuns.DisjointJobsCreateOnce | apps/api/src/integrations/zoho-sync.service.ts:381-435 | then no job fails, and when all have finished every record in a footprint is created once and has its id |
| BackfillRuns.OverlapCreatesTwice | apps/api/src/integrations/zoho-sync.service.ts:112-118 | two jobs that share their first creation have a schedule that creates it twice |
| BackfillRereads.StoredIsNotCreatedAgain | apps/api/src/integrations/zoho-sync.service.ts:270-304 | under every schedule, a customer or an invoice whose id is stored is not created again unless a job had read it as absent before |
| BackfillTargets.TargetsDisjoint | apps/api/src/integrations/zoho-sync.service.ts:49-70 | the exclusion rule makes all queued jobs' footprints disjoint unless one of the two shared shapes occurs |
| BackfillTargets.EverythingCovered | apps/api/src/integrations/zoho-sync.service.ts:162-178 | every payment, invoice and customer of the input is in some queued job's footprint |
| BackfillTargets.ExactlyOnceIff | apps/api/src/integrations/zoho-sync.service.ts:107-118 | at most one creation per record under every schedule if and only if neither shared shape occurs |
| BackfillTargets.BackfillCompletes | apps/api/src/integrations/zoho-sync.service.ts:120-189 | with neither shape, all jobs finished means every input record has its id and was created exactly once |
| InvoiceDetail.RealSubtotalRecovered | apps/api/src/integrations/zoho-pull.service.ts:1195-1207 | for any detail, whatever the synthetic lines' number and order, the recovered subtotal is the sum of the real lines |
| InvoiceDetail.LinesRoundTripIff | apps/api/src/adapters/accounting/zoho-books.adapter.ts:548-575 | pushed and read back, the line items are the same exactly when every line survives |
| InvoiceDetail.SubtotalDrifts | apps/api/src/integrations/zoho-pull.service.ts:1195-1207 | pushed and read back, the invoice's own subtotal returns moved by its lines' drift and by neither tax nor fee: a line taken for a pushed one drops out, a negative half gains one |
| InvoiceDetail.MoneyReturnsIff | apps/api/src/integrations/zoho-pull.service.ts:1184-1211 | subtotal, tax and rate all return exactly when the lines do not drift, what is read back as tax is what was left to Zoho, and the rate is the nearest to the quotient |
| InvoiceDetail.RealMoneyReturnsIff | apps/api/src/integrations/zoho-pull.service.ts:1184-1211 | for lines not taken for pushed ones: exactly when none is a negative half, Zoho's tax is the one left to it, and the rate fits |
| InvoiceDetail.RateReturnsIff | apps/api/src/integrations/zoho-pull.service.ts:1208-1208 | a rate is recovered from a subtotal and a tax exactly when it is within half a basis point of their quotient |
| InvoiceDetail.AllKeptIffAllReal | apps/api/src/integrations/zoho-pull.service.ts:49-64 | no line is dropped exactly when none looks synthetic |
| InvoiceDetail.TakenFor | apps/api/src/integrations/zoho-pull.service.ts:49-64 | which lines are taken for pushed ones, by name, description and the lack of a tax id |
| InvoiceDetail.PushedTotalReconcilesIff | apps/api/src/adapters/accounting/zoho-books.adapter.ts:505-575 | what is pushed and the tax left to Zoho add up to the invoice's own lines, tax and fee exactly when no line total is a negative exact half and the fee is not negative |
| InvoiceDetail.PercentReadsBack | apps/api/src/adapters/accounting/zoho-books.adapter.ts:561-561 | the percentage in the tax line's description reads back as the applied rate |
| InvoiceDetail.LineReads | apps/api/src/integrations/zoho-pull.service.ts:1240-1266 | a line read back is named or numbered from one, its total the nearest to rate times quantity, and exempt exactly without a tax id |
| InvoiceDetail.RoundingsAgree | packages/shared/src/money/money.ts:120-129 | the money library's rounding and the pull's differ exactly on negative halves |
| InvoiceDetail.EveryRateSurvivesIff | apps/api/src/integrations/zoho-pull.service.ts:1208-1208 | every rate is recovered from its own tax if and only if the subtotal is at least 10,000 |
| InvoiceDetail.RateWithinHalf | apps/api/src/integrations/zoho-pull.service.ts:1205-1208 | for any positive subtotal and any tax, the recovered rate is within half a basis point of the quotient |
| InvoiceDetail.InvoiceRow.ApplyInvoiceDetail | apps/api/src/integrations/zoho-pull.service.ts:1184-1236 | the filter loop and the writes store the recovered subtotal, tax, rate, notes and lines, and never the card fee |
| InvoiceDetail.InvoiceRow.ReplaceLineItems | apps/api/src/integrations/zoho-pull.service.ts:1225-1234 | whatever was stored before, exactly the new list remains at positions 0 to n-1 |
| LedgerRuns.BooksAlwaysBalance | apps/api/src/invoices/invoices.service.ts:782-826 | in every interleaving of reads and writes the balance stays between zero and the total, and until a gateway writes, balance plus recorded payments is the total exactly |
| LedgerRuns.CommitKeeps | apps/api/src/invoices/invoices.service.ts:799-813 | the test on the balance alone has no ABA case: while it holds, nothing was recorded since the read |
| LedgerRuns.ChecksNeverDoubleMoney | apps/api/src/checks/checks.service.ts:141-167 | at most one check payment is ever recorded for an invoice |
| LedgerRuns.CheckPaymentEmptiesBalance | apps/api/src/public/public-invoices.service.ts:294-332 | a check payment is recorded for exactly the whole balance and leaves zero |
| LedgerRuns.UndisturbedGateway | apps/api/src/payments/payments.service.ts:317-377 | with nothing in between, the read and the write of a webhook, a confirmation or an attempt are the single transactions of the ledger |
| LedgerRuns.UndisturbedCustomer | apps/api/src/public/public-invoices.service.ts:156-170 | and so are those of an issue, a first view and a check submission |
| LedgerStaff.UndisturbedPayment | apps/api/src/invoices/invoices.service.ts:776-826 | with nothing in between, a payment by staff settles exactly a positive amount within the balance of an issued invoice |
| LedgerStaff.UndisturbedCancel | apps/api/src/invoices/invoices.service.ts:858-895 | with nothing in between, exactly an unpaid invoice that is not yet final is cancelled |
| LedgerStaff.UndisturbedApprovalRead | apps/api/src/checks/checks.service.ts:141-158 | with nothing in between, the first two steps of an approval go on exactly for a pending submission whose claim is a representable amount the invoice still takes |
| LedgerStaff.UndisturbedApprovalWrite | apps/api/src/checks/checks.service.ts:141-167 | and the last two record the whole claim and close the submission |
| LedgerStaff.UndisturbedRejection | apps/api/src/checks/checks.service.ts:169-180 | the two of a rejection close exactly a pending submission |
| LedgerStatuses.PaidMeansClearedIff | apps/api/src/payments/payments.service.ts:363-377 | over any run of separate reads and writes, an invoice with a positive total is PAID exactly when nothing is owed, throughout, if and only if no step is a late write that leaves PAID |
| LedgerStatuses.StepKeepsClearedIff | apps/api/src/payments/payments.service.ts:493-560 | step by step, from any state in which the two agree |
| LedgerStatuses.PaidMeansCleared | packages/shared/src/domain/invoice-status.ts:148-156 | after a run without such a write, a positive invoice is paid exactly when nothing is owed |
| LedgerStatuses.PaidLeftIff | apps/api/src/payments/payments.service.ts:493-560 | in every reachable state, a step leaves PAID exactly when it is such a write; the balance stays zero and no staff money is recorded after it |
| LedgerRaces.LateFailureUnpays | apps/api/src/payments/payments.service.ts:317-377 | a declined attempt's webhook reads, staff record the whole balance, the webhook writes: the invoice ends SENT with nothing owed |
| LedgerRaces.LateStartUnpays | apps/api/src/payments/payments.service.ts:117-206 | an attempt reads the sent invoice, staff record the whole balance, the attempt starts: it ends pending with nothing owed |
| LedgerRaces.LateViewUnpays | apps/api/src/public/public-invoices.service.ts:156-170 | a first view reads, staff record the whole balance, the view is written: it ends viewed with nothing owed |
| LedgerStatuses.CancelledUnlessRaced | apps/api/src/invoices/invoices.service.ts:857-879 | in every reachable state, a step revives a cancelled invoice exactly when it writes what was read before: a payment with the same balance, an accepted gateway failure or success, an attempt, an issue or a first view |
| LedgerRaces.LateSuccessRevives | apps/api/src/payments/payments.service.ts:317-377 | a successful attempt's webhook reads, staff cancel, the webhook writes: the cancelled invoice ends paid |
| LedgerRaces.CancelRaceIsReachable | apps/api/src/invoices/invoices.service.ts:800-810 | a payment by staff read before the cancellation still lands, on every sent invoice and for every partial amount |
| PaymentAttempts.OneRowPerKey | apps/api/src/payments/payments.service.ts:148-152 | over every run a key names at most one payment |
| PaymentAttempts.ReplayChangesNothing | apps/api/src/payments/payments.service.ts:152-168 | replaying a committed nonce any run later changes nothing, never calls the gateway and reports the status of the row under its key |
| PaymentAttempts.AttemptCommits | apps/api/src/payments/payments.service.ts:181-242 | an answered attempt leaves exactly one new row under its key; any failure leaves the books as they were |
| PaymentAttempts.AttemptCalledIff | apps/api/src/payments/payments.service.ts:129-179 | the gateway is called exactly for an offered method, a key no payment has, and a sent, viewed, partially paid or pending invoice with a positive balance |
| PaymentAttempts.AttemptRecords | apps/api/src/payments/payments.service.ts:181-247 | once called, an answer with a reference no payment has gives a reply and one new row with the key, method, charge, reference and status of the attempt, and leaves the invoice paid, back where it was, or waiting; any other answer gives none |
| PaymentAttempts.PaymentsPersist | apps/api/src/payments/payments.service.ts:474-571 | payments only accumulate, and those recorded by staff are never rewritten |
| PaymentAttempts.DeliveryKeepsLatest | apps/api/src/payments/payments.service.ts:345-355 | after any deliveries the payment row is what its latest fresh event alone would leave |
| PaymentAttempts.DeliveriesConverge | apps/api/src/payments/payments.service.ts:340-384 | every order and repetition of the same events ends with the same payment row, whatever the invoice is |
| InvoiceConvergence.InvoiceConvergesIff | apps/api/src/payments/payments.service.ts:345-384 | for any events of one payment with distinct times, all orders and repetitions leave the same invoice exactly under a condition on the latest event that would apply, the other such events and the recorded previous status |
| InvoiceConvergence.ReachableInvoiceConvergesIff | apps/api/src/payments/payments.service.ts:493-548 | the same from every reachable state, with no other premise |
| PaymentAttempts.InvoiceDependsOnOrder | apps/api/src/payments/payments.service.ts:493-548 | a success and a later failure end paid in order and unpaid in reverse |
| PaymentAttempts.SettledRowKeptIff | apps/api/src/payments/payments.service.ts:366-371 | on a paid invoice a settled row stays settled exactly under dropped events and repeated successes |
| PaymentAttempts.DeclineRoundTrip | apps/api/src/payments/payments.service.ts:528-571 | an attempt, any quiet events and a fresh failure restore status and balance; when the previous status is cleared |
| LedgerService.InvoiceAccount.CreateIntent | apps/api/src/payments/payments.service.ts:112-261 | the transaction in source order: when the gateway is called, what row an answer adds, and that a thrown answer or a reference in use takes every write back |
| LedgerService.InvoiceAccount.ReadEvent | apps/api/src/payments/payments.service.ts:288-361 | the unscoped read: unverified, unattributed, unknown, unmodelled or stale events lead to no write, any other to what was read |
| LedgerService.InvoiceAccount.Settle | apps/api/src/payments/payments.service.ts:363-377 | the scoped write settles by the status that was read, whatever the invoice has become |
| LedgerService.InvoiceAccount.HandleWebhook | apps/api/src/payments/payments.service.ts:288-384 | with nothing in between, the two apply the event, or change nothing |
| LedgerService.InvoiceAccount.ConfirmClientResult | apps/api/src/payments/payments.service.ts:404-466 | the client's confirmation applies only the gateway's own answer, only to an open payment |
| LedgerService.InvoiceAccount.ApplySettlement | apps/api/src/payments/payments.service.ts:474-571 | the shared settlement judges the status its caller read and writes payment and invoice unconditionally |
| LedgerService.InvoiceAccount.RecordManualPayment | apps/api/src/invoices/invoices.service.ts:776-855 | lands exactly for a text that denotes a representable amount, positive and within the balance, on an issued invoice; that amount comes off the balance and one settled payment is added |
| LedgerService.InvoiceAccount.Issue | apps/api/src/invoices/invoices.service.ts:727-762 | issues exactly a draft with lines, a positive total and a deliverable address |
| LedgerService.InvoiceAccount.Cancel | apps/api/src/invoices/invoices.service.ts:858-895 | cancels exactly an unpaid invoice in a cancellable status |
| LedgerService.InvoiceAccount.SubmitCheck | apps/api/src/public/public-invoices.service.ts:278-336 | a submission claims the balance of the moment and changes nothing else |
| LedgerService.InvoiceAccount.Approve | apps/api/src/checks/checks.service.ts:146-167 | undisturbed, records the whole claim and closes the submission, or neither, and exactly when |
| LedgerService.InvoiceAccount.Reject | apps/api/src/checks/checks.service.ts:169-180 | closes exactly a pending submission, with a reason, and moves no money |
| Money.FormatParseRoundTrip | packages/shared/src/money/money.ts:206-278 | formatting then parsing is the identity on every representable amount |
| ParsedAmounts.ParseMeans | packages/shared/src/money/money.ts:260-279 | on every input: blanks around it and commas aside, a sign, digits and at most two decimals denote that amount in hundredths, one decimal counting tenths; more decimals, an amount beyond the safe integers and any other text are refused, each with its own error |
| ParsedAmounts.BlanksChangeNothing | packages/shared/src/money/money.ts:260-262 | blanks around an amount change nothing |
| ParsedAmounts.CommasChangeNothing | packages/shared/src/money/money.ts:260-262 | nor does a comma anywhere between its first and last character |
| InvoiceTransitions.OneSettlementFits | packages/shared/src/domain/invoice-status.ts:132-158 | of a partial and a full settlement of an invoice awaiting one, exactly the one that fits a positive amount is accepted |
| InvoiceTransitions.RefusalNamesCause | packages/shared/src/domain/invoice-status.ts:91-193 | each refusal is given for exactly one failed condition, the status judged before anything else |
| Lockout.QueryCountsTrailingRun | apps/api/src/auth/auth.service.ts:439-469 | the two queries together count the failures of the trailing run inside the window |
| Lockout.LockoutBound | apps/api/src/auth/auth.service.ts:430-487 | with at most m attempts open at once, no stretch under fifteen minutes without a success or a lock clearing holds more than 4 + m wrong passwords |
| Lockout.OverlapAddsBoth | apps/api/src/auth/auth.service.ts:135-145 | two attempts let through together are both recorded, lock or no lock |
| LockoutAlone.UndisturbedFailure | apps/api/src/auth/auth.service.ts:430-487 | undisturbed, a wrong password locks for thirty minutes from the fifth failure of the trailing run inside fifteen |
| LockoutAlone.UndisturbedSuccess | apps/api/src/auth/auth.service.ts:158-169 | undisturbed, a right one clears the lock and records the success |
| LockoutAlone.ClearLetsIn | apps/api/src/auth/auth.service.ts:331-342 | a cleared lock lets the next attempt through |
| LockoutTightness.BoundIsAttained | apps/api/src/auth/auth.service.ts:135-145 | for every m there is room for, a schedule of m open attempts puts 4 + m wrong passwords in one window |
| LockoutTightness.FivePerWindowIff | apps/api/src/auth/auth.service.ts:430-487 | at most five per window holds over every schedule of m open attempts exactly when m is at most one |
| LockoutTightness.LeastBound | apps/api/src/auth/auth.service.ts:430-487 | a bound holds over every such schedule exactly when it is at least 4 + m |
| Lockout.AuthService.CountRecentFailures | apps/api/src/auth/auth.service.ts:439-469 | the imperative queries compute that count |
| Lockout.AuthService.RegisterFailure | apps/api/src/auth/auth.service.ts:430-487 | records the wrong password, sets the counter to the trailing run and locks from five |
| Lockout.AuthService.Resolve | apps/api/src/auth/auth.service.ts:102-122 | the loop over the candidates charges the first whose password matches, or else the first |
| Lockout.AuthService.Login | apps/api/src/auth/auth.service.ts:93-183 | what the charged account's lock, password and status decide, in that order: signed in exactly when unlocked, matched and unsuspended, each refusal logged with its reason, a wrong password counted, a locked account unchanged |
| Lockout.AuthService.ClearLock | apps/api/src/auth/auth.service.ts:331-342 | clears the lock and leaves the failures behind it counting |
| PasswordReset.SlotIsLatestUnspent | apps/api/src/auth/password-reset.service.ts:33-51 | a user's slot holds a token exactly when it was the last issued to them and not spent |
| PasswordReset.SlotTokensDistinct | apps/api/src/auth/password-reset.service.ts:33-51 | no two users hold the same token |
| PasswordReset.ConsumedOnce | apps/api/src/auth/password-reset.service.ts:58-84 | each token succeeds at most once in any history |
| PasswordReset.ResetTokens.Issue | apps/api/src/auth/password-reset.service.ts:33-51 | a new link, valid 24 hours, replaces the user's slot |
| PasswordReset.ResetTokens.Consume | apps/api/src/auth/password-reset.service.ts:64-84 | succeeds exactly for the token in its user's slot before expiry, and empties the slot |
| PasswordReset.ResetTokens.PurgeExpired | apps/api/src/auth/password-reset.service.ts:87-92 | deletes exactly the expired rows, after which every token is still answered by its slot |
| PasswordReset.OneLinkEachIff | apps/api/src/auth/password-reset.service.ts:28-51 | over any interleaving of the issue and consume statements with fresh tokens, no user is ever left with two live links exactly when between any two inserted for one user the first is invalidated or spent |
| PasswordReset.LiveAreUnusedRows | apps/api/src/auth/password-reset.service.ts:37-48 | the live links of such a run are exactly the unused rows of the table it leaves |
| PasswordReset.UsedIsFinal | apps/api/src/auth/password-reset.service.ts:37-84 | a used row keeps the moment of its use under any statements after it |
| PasswordReset.OverlappingIssuesLeaveTwoLinks | apps/api/src/auth/password-reset.service.ts:37-48 | two overlapping issues leave both links live |
| UserAdmin.AlwaysAnOwner | apps/api/src/users/users.service.ts:377-386 | over any requests the merchant keeps an owner who is not suspended |
| UserAdmin.AcceptedIff | apps/api/src/users/users.service.ts:101-386 | exactly which requests are accepted: of callers who reach the user, administer the roles involved, stay within their brands and leave another owner |
| UserAdmin.OverlappingRemovalsKeepAnOwnerIff | apps/api/src/users/users.service.ts:377-386 | any two accepted removals of different owners, decided on one snapshot, leave an active owner exactly when there was a third |
| UserAdmin.OverlappingDemotionsLoseEveryOwner | apps/api/src/users/users.service.ts:379-386 | the case arises: the last two owners of any merchant demote each other, both accepted at once, where one after the other the second is refused |
| UserAdmin.AlwaysTidy | apps/api/src/users/users.service.ts:184-194 | all-brand users hold no assignment rows, and addresses stay unique |
| UserAdmin.NobodyRisesAboveTheActors | packages/shared/src/domain/roles.ts:136-138 | callers of a rank never change a row above it nor raise anyone above it |
| UserAdmin.ReplacementIsExact | apps/api/src/users/users.service.ts:265-297 | a Brand Admin leaves every row outside their slice and makes the slice exactly what was asked; an all-brand actor replaces the whole set |
| UserAdmin.BrandAdminStaysInside | apps/api/src/users/users.service.ts:332-342 | a brand-scoped actor changes no one they cannot see and adds no brand beyond their own |
| UserAdmin.BrandlessExactlyWhenSliceWasAll | apps/api/src/users/users.service.ts:254-264 | the one way a user loses every brand |
| UserAdmin.AllBrandActorsLeaveNoneBrandless | apps/api/src/users/users.service.ts:178-181 | with only all-brand actors no one is ever left brandless |
| UserAdmin.UsersService.InviteUser | apps/api/src/users/users.service.ts:101-138 | an invitation commits as specified or changes nothing |
| UserAdmin.UsersService.ChangeRole | apps/api/src/users/users.service.ts:158-209 | a role change commits with its brands, or a late refusal takes the role back too |
| UserAdmin.UsersService.ChangeBrands | apps/api/src/users/users.service.ts:224-252 | a brand change commits as specified or changes nothing |
| UserAdmin.UsersService.ChangeStatus | apps/api/src/users/users.service.ts:299-327 | a status change commits as specified or changes nothing |
| BoundedMap.MapWithConcurrency | apps/api/src/common/concurrency.ts:17-34 | under every schedule it runs an execution of that many workers to its end with the cap holding in every state, results sit at their own index, and it resolves exactly when no call rejects |
| BoundedMap.CapHolds | apps/api/src/common/concurrency.ts:17-34 | in every state of every execution no more calls are in flight than workers, each for an index of its own |
| BoundedMap.CapIsReached | apps/api/src/common/concurrency.ts:17-34 | for every number of workers some execution has all their calls in flight at once |
| BoundedMap.HandedOutOnce | apps/api/src/common/concurrency.ts:25-30 | every index below `next` was handed out at exactly one turn |
| BoundedMap.Pool.Resume | apps/api/src/common/concurrency.ts:25-30 | one worker's turn keeps every claimed index stored, in flight or rejected |
| EmailEmphasis.FourPassesAreOne | packages/shared/src/domain/email-receipt-html.ts:229-235 | the four replacement passes are one character map |
| EmailEmphasis.EscapeConcat | packages/shared/src/domain/email-receipt-html.ts:229-235 | which distributes over concatenation |
| EmailEmphasis.EscapeRoundTrip | packages/shared/src/domain/email-receipt-html.ts:229-235 | and is undone by reading entities back |
| EmailEmphasis.EscapedIsInert | packages/shared/src/domain/email-receipt-html.ts:229-235 | escaped text holds no markup character |
| EmailEmphasis.EmphasisValuesAre | packages/shared/src/domain/email-receipt-html.ts:187-192 | the values are exactly the invoice number, amount due, due date, customer and brand name longer than one character once trimmed, longest first |
| EmailEmphasis.EmphasisMarks | packages/shared/src/domain/email-receipt-html.ts:206-219 | the output is the line's tiling by text in which no value starts and longest values in turn, everything escaped, each value and nothing else in a strong element of the style |
| EmailEmphasis.OneMarking | packages/shared/src/domain/email-receipt-html.ts:206-219 | and there is only one such output |
| EmailEmphasis.EmphasisRoundTrip | packages/shared/src/domain/email-receipt-html.ts:206-219 | removing the wrappers leaves the escaped line, and decoding that the line |
| EmailEmphasis.MessageReadsBack | packages/shared/src/domain/email-receipt-html.ts:72-94 | whatever subject, body, values and theme colour hold, the email's subject and paragraphs read back as the subject and the body's non-blank lines |
| EmailEmphasis.MessageIsMarked | packages/shared/src/domain/email-receipt-html.ts:72-94 | the heading and every paragraph are so marked, each in its own style |
| EmailEmphasis.ShownAre | packages/shared/src/domain/email-receipt-html.ts:72-82 | exactly the lines that are not blank are shown, in order |

## Left out

- Row-level security, Prisma, Redis, BullMQ, HTTP controllers, OAuth and the payment provider clients: input and output; rows are maps and a scoped transaction is atomic.
- Isolation below serialisable inside one scoped transaction, except for invoices (`LedgerRuns` splits every operation) and where a theorem shows what it costs (`UserAdmin.OverlappingRemovalsKeepAnOwnerIff`).
- A sign-in reads the account and judges its lock in one step; clearing the lock and recording the success are steps of their own.
- Cryptography: digests are injective, tokens and random keys fresh.
- The whole of `calculate`: only line-total rounding is modelled; a gateway charge is a parameter.
- A push's remote write and its local stamp are one step, and so are a detail fetch and the write of its lines.
- Contacts in the interleaved protocol: `SyncProtocol` covers invoices; `ContactPull` covers one scan at a time, its eight concurrent fetches taken in turn.
- Invoices without a `last_modified_time` in the interleaved protocol; `InvoicePull` covers them.
- Floating point: decimals are exact integers, and Zoho's `sub_total` is taken to be the sum of its lines' rounded amounts.
- Text is compared by characters, where the original counts UTF-16 units; the escaped alternation of the segmenter is modelled as literal matching.
- Delivery theorems (`PaymentAttempts`, `InvoiceConvergence`) take one payment's events one at a time; their reads and writes interleave in `LedgerRuns`.
- Zoho pulls inside the money properties: a pull overwrites total and balance with Zoho's own.
- Address, contact-person and country merging of contacts, payment links' random tokens, publishing of events and activity rows: easy members.
- BackfillTargets.BackfillCompletes: assumes sync is switched on and Zoho accepts every request, so it does not cover a cancelled invoice that was never pushed, whose push the adapter always refuses.
- SyncLines.PullsRewriteOnlyForeignEdits: a corollary under one writer per record and pushes apart from pending writes, which the code does not enforce; the exact statement is SyncEchoes.RewritesAreExplained.
- LockoutTightness.LeastBound: for m below the ticks one window holds, since entries of one account have distinct ticks here.
- InvoicePull.Brand.PullBrand: the customers phase is a given outcome here and is proved in ContactPull.
- Dashboards, lists, filters, onboarding, PDF and email layout, and all user-interface code: easy or presentation only.
