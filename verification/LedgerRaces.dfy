/** Runs from a new invoice in which a late write undoes PAID or CANCELLED. */
module LedgerRaces {
  import opened Common
  import opened InvoiceTransitions
  import opened Ledger
  import opened LedgerRuns
  import opened LedgerStatuses

  /** An invoice that can be issued. */
  ghost predicate Issuable(s: State) {
    Initial(s) && s.books.invoice.totalMinor > 0 && s.books.invoice.lineItemCount > 0 && s.books.invoice.customerHasEmail
  }

  lemma Append1(s: State, steps: seq<Step>, step: Step)
    ensures Run(s, steps + [step]) == Next(Run(s, steps), step)
  {
    assert (steps + [step])[..|steps|] == steps;
  }

  lemma Append2(s: State, steps: seq<Step>, read: Step, write: Step)
    ensures Run(s, steps + [read, write]) == Both(Run(s, steps), read, write)
  {
    assert steps + [read, write] == steps + [read] + [write];
    Append1(s, steps, read);
    Append1(s, steps + [read], write);
  }

  // --- The parts of the runs -------------------------------------------------------------

  function PendingBooks(b: Books, via: Method, chargeMinor: int, nonce: string, reference: string): Books {
    b.(payments := b.payments + [Payment(AttemptKey(chargeMinor, nonce), Gateway, via, chargeMinor,
                                         PaymentStatus.PROCESSING, Some(reference), Some(1))],
       invoice := b.invoice.(status := InvoiceStatus.PENDING_PAYMENT, previousStatus := Some(b.invoice.status)))
  }

  function PaidBooks(b: Books): Books {
    b.(payments := b.payments + [Payment(ManualKey(|b.payments|), Staff, MANUAL, b.invoice.balanceMinor, SETTLED, None, None)],
       invoice := b.invoice.(status := PAID, balanceMinor := 0, previousStatus := None))
  }

  function CancelledBooks(b: Books): Books {
    b.(invoice := b.invoice.(status := InvoiceStatus.CANCELLED, previousStatus := None))
  }

  function Issuing(): seq<Step> {
    [ReadIssue(0), Mark(0)]
  }

  lemma Issued(s: State)
    requires Issuable(s)
    ensures Run(s, Issuing()) == s.(books := Marked(s.books, SENT))
  {
    Append2(s, [], ReadIssue(0), Mark(0));
    assert [] + [ReadIssue(0), Mark(0)] == Issuing();
    UndisturbedCustomer(s, 0, true);
  }

  lemma Attempted(u: State, via: Method, chargeMinor: int, nonce: string, reference: string)
    requires 1 !in u.flights && Payable(u.books.invoice.status) && u.books.invoice.balanceMinor > 0 && u.books.payments == []
    ensures Both(u, ReadAttempt(1, via, true, chargeMinor, nonce), Start(1, Intent(reference, REQUIRES_ACTION, 1)))
         == u.(books := PendingBooks(u.books, via, chargeMinor, nonce, reference))
  {
    UndisturbedAttempt(u, 1, via, true, chargeMinor, nonce, Intent(reference, REQUIRES_ACTION, 1));
  }

  /** Staff record the whole balance. */
  lemma PaidWhole(u: State)
    requires 3 !in u.flights && TakesPayment(u.books.invoice, u.books.invoice.balanceMinor)
    ensures Both(u, ReadPayment(3, u.books.invoice.balanceMinor, MANUAL), Commit(3)) == u.(books := PaidBooks(u.books))
  {
    var read := ReadPayment(3, u.books.invoice.balanceMinor, MANUAL);
    assert u.flights[3 := Reads(u.books, read).value] - {3} == u.flights;
  }

  lemma CancelledUnpaid(u: State)
    requires 3 !in u.flights && MayCancel(u.books.invoice) && u.books.invoice.balanceMinor == u.books.invoice.totalMinor
    ensures Both(u, ReadCancel(3), CommitCancellation(3)) == u.(books := CancelledBooks(u.books))
  {
    assert u.flights[3 := Canceller(u.books.invoice.status)] - {3} == u.flights;
  }

  lemma EventRead(u: State, event: Event)
    requires 2 !in u.flights && |u.books.payments| == 1 && u.books.payments[0].gatewayReference.Some?
    requires u.books.payments[0].lastEventAt == Some(1) && event.occurredAt > 1 && !event.kind.UNKNOWN?
    ensures Next(u, ReadEvent(2, 0, event)) == u.(flights := u.flights[2 :=
      Settler(0, ResultOf(event.kind), event.occurredAt, BeforeAttempt(u.books.invoice), u.books.invoice.status)])
  {
  }

  /** Issued, attempted at 1 without an outcome yet, and an event of time 2 read but not written. */
  lemma HoldingEvent(s: State, via: Method, chargeMinor: int, nonce: string, reference: string, kind: EventType)
    returns (steps: seq<Step>)
    requires Issuable(s) && !kind.UNKNOWN?
    ensures Run(s, steps) == s.(books := PendingBooks(Marked(s.books, SENT), via, chargeMinor, nonce, reference),
      flights := map[2 := Settler(0, ResultOf(kind), 2, SENT, InvoiceStatus.PENDING_PAYMENT)])
  {
    Issued(s);
    var read, start := ReadAttempt(1, via, true, chargeMinor, nonce), Start(1, Intent(reference, REQUIRES_ACTION, 1));
    Append2(s, Issuing(), read, start);
    Attempted(Run(s, Issuing()), via, chargeMinor, nonce, reference);
    var attempted := Issuing() + [read, start];
    steps := attempted + [ReadEvent(2, 0, Event(kind, 2))];
    Append1(s, attempted, ReadEvent(2, 0, Event(kind, 2)));
    EventRead(Run(s, attempted), Event(kind, 2));
  }

  // --- PAID undone -------------------------------------------------------------------------

  /** The last step takes the invoice from PAID to this status, with nothing owed before or after. */
  ghost predicate Unpays(s: State, steps: seq<Step>, to: InvoiceStatus) {
    && steps != []
    && var before := Run(s, steps[..|steps| - 1]); var after := Run(s, steps);
       && LeavesPaid(before, steps[|steps| - 1])
       && before.books.invoice.status.PAID? && before.books.invoice.balanceMinor == 0
       && after.books.invoice.status == to && after.books.invoice.balanceMinor == 0
  }

  /** Whatever is held across the payment of the whole balance. */
  lemma PaidMeanwhile(s: State, steps: seq<Step>, write: Step) returns (more: seq<Step>)
    requires 3 !in Run(s, steps).flights
    requires var i := Run(s, steps).books.invoice; TakesPayment(i, i.balanceMinor)
    ensures more != [] && more[|more| - 1] == write
    ensures Run(s, more[..|more| - 1]) == Run(s, steps).(books := PaidBooks(Run(s, steps).books))
    ensures Run(s, more) == Next(Run(s, more[..|more| - 1]), write)
  {
    var read := ReadPayment(3, Run(s, steps).books.invoice.balanceMinor, MANUAL);
    Append2(s, steps, read, Commit(3));
    PaidWhole(Run(s, steps));
    var paid := steps + [read, Commit(3)];
    more := paid + [write];
    Append1(s, paid, write);
    assert more[..|more| - 1] == paid;
  }

  /** A declined attempt's webhook reads the pending invoice; staff record the whole balance; the webhook writes. */
  lemma LateFailureUnpays(s: State, via: Method, chargeMinor: int, nonce: string, reference: string) returns (steps: seq<Step>)
    requires Issuable(s)
    ensures Unpays(s, steps, SENT)
  {
    var held := HoldingEvent(s, via, chargeMinor, nonce, reference, EventType.PAYMENT_FAILED);
    steps := PaidMeanwhile(s, held, Settle(2));
    var before := Run(s, steps[..|steps| - 1]);
    assert before.flights == Run(s, held).flights;
    FailureUnpays(before, 2);
  }

  lemma FailureUnpays(u: State, op: nat)
    requires u.books.invoice.status.PAID? && u.books.invoice.balanceMinor == 0 && op in u.flights && u.flights[op].Settler?
    requires FromGateway(u.books, u.flights[op].pid) && FailsBack(u.flights[op]) && u.flights[op].before.SENT?
    ensures LeavesPaid(u, Settle(op)) && Next(u, Settle(op)).books.invoice.status.SENT?
    ensures Next(u, Settle(op)).books.invoice.balanceMinor == 0
  {
  }

  /** A customer's attempt reads the sent invoice; staff record the whole balance; the attempt starts. */
  lemma LateStartUnpays(s: State, via: Method, chargeMinor: int, nonce: string, reference: string) returns (steps: seq<Step>)
    requires Issuable(s)
    ensures Unpays(s, steps, InvoiceStatus.PENDING_PAYMENT)
  {
    Issued(s);
    var read := ReadAttempt(1, via, true, chargeMinor, nonce);
    Append1(s, Issuing(), read);
    AttemptRead(Run(s, Issuing()), via, chargeMinor, nonce);
    var start := Start(1, Intent(reference, REQUIRES_ACTION, 1));
    steps := PaidMeanwhile(s, Issuing() + [read], start);
    var before := Run(s, steps[..|steps| - 1]);
    StartsAfresh(before, via, chargeMinor, nonce, start.answer);
    StartUnpays(before, 1, start.answer);
  }

  lemma AttemptRead(u: State, via: Method, chargeMinor: int, nonce: string)
    requires u.flights == map[] && u.books.invoice.status.SENT? && u.books.invoice.balanceMinor > 0 && u.books.payments == []
    ensures Next(u, ReadAttempt(1, via, true, chargeMinor, nonce))
         == u.(flights := map[1 := Starter(via, chargeMinor, nonce, SENT)])
  {
  }

  lemma StartUnpays(u: State, op: nat, answer: Answer)
    requires u.books.invoice.status.PAID? && u.books.invoice.balanceMinor == 0 && op in u.flights && u.flights[op].Starter?
    requires Starts(u.books, u.flights[op], answer) && !answer.status.SUCCEEDED? && !answer.status.FAILED?
    ensures LeavesPaid(u, Start(op, answer))
    ensures Next(u, Start(op, answer)).books.invoice.status.PENDING_PAYMENT?
    ensures Next(u, Start(op, answer)).books.invoice.balanceMinor == 0
  {
    StartEnds(u.books, u.flights[op], answer);
  }

  lemma StartsAfresh(u: State, via: Method, chargeMinor: int, nonce: string, answer: Answer)
    requires |u.books.payments| == 1 && u.books.payments[0].key.ManualKey? && u.books.payments[0].gatewayReference.None?
    requires answer.Intent?
    ensures StartAttempt(u.books, via, chargeMinor, nonce, SENT, answer).Some?
  {
    assert IndexOfKey(u.books.payments[..0], AttemptKey(chargeMinor, nonce)).None?;
  }

  /** A first view reads the sent invoice; staff record the whole balance; the view is written. */
  lemma LateViewUnpays(s: State) returns (steps: seq<Step>)
    requires Issuable(s)
    ensures Unpays(s, steps, VIEWED)
  {
    Issued(s);
    Append1(s, Issuing(), ReadView(1));
    ViewRead(Run(s, Issuing()));
    steps := PaidMeanwhile(s, Issuing() + [ReadView(1)], Mark(1));
    ViewUnpays(Run(s, steps[..|steps| - 1]), 1);
  }

  lemma ViewRead(u: State)
    requires u.flights == map[] && u.books.invoice.status.SENT?
    ensures Next(u, ReadView(1)) == u.(flights := map[1 := Marker(VIEWED)])
  {
  }

  lemma ViewUnpays(u: State, op: nat)
    requires u.books.invoice.status.PAID? && u.books.invoice.balanceMinor == 0 && op in u.flights && u.flights[op] == Marker(VIEWED)
    ensures LeavesPaid(u, Mark(op)) && Next(u, Mark(op)).books.invoice.status.VIEWED?
    ensures Next(u, Mark(op)).books.invoice.balanceMinor == 0
  {
  }

  // --- CANCELLED undone -----------------------------------------------------------------------

  /** A successful attempt's webhook reads the pending invoice; staff cancel it; the webhook writes, and it is paid. */
  lemma LateSuccessRevives(s: State, via: Method, chargeMinor: int, nonce: string, reference: string) returns (steps: seq<Step>)
    requires Issuable(s)
    ensures steps != [] && steps[|steps| - 1] == Settle(2)
    ensures var before := Run(s, steps[..|steps| - 1]); var after := Run(s, steps);
      && before.books.invoice.status.CANCELLED? && Revives(before, Settle(2))
      && after.books.invoice.status.PAID? && after.books.invoice.balanceMinor == 0
  {
    var held := HoldingEvent(s, via, chargeMinor, nonce, reference, PAYMENT_SUCCEEDED);
    Append2(s, held, ReadCancel(3), CommitCancellation(3));
    CancelledUnpaid(Run(s, held));
    var cancelled := held + [ReadCancel(3), CommitCancellation(3)];
    Append1(s, cancelled, Settle(2));
    steps := cancelled + [Settle(2)];
    assert steps[..|steps| - 1] == cancelled;
    SuccessRevives(Run(s, cancelled), 2);
  }

  lemma SuccessRevives(u: State, op: nat)
    requires u.books.invoice.status.CANCELLED? && op in u.flights && u.flights[op].Settler?
    requires FromGateway(u.books, u.flights[op].pid) && SettlesFully(u.flights[op])
    ensures Revives(u, Settle(op)) && Next(u, Settle(op)).books.invoice.status.PAID?
    ensures Next(u, Settle(op)).books.invoice.balanceMinor == 0
  {
  }

  /** A payment by staff read before the cancellation still lands, on every sent invoice and for every partial amount. */
  lemma CancelRaceIsReachable(s: State, amountMinor: int)
    requires s.flights == map[] && s.books.invoice.status.SENT?
    requires s.books.invoice.balanceMinor == s.books.invoice.totalMinor
    requires 0 < amountMinor < s.books.invoice.balanceMinor
    ensures var read := Next(s, ReadPayment(1, amountMinor, MANUAL));
      var cancelled := Both(read, ReadCancel(3), CommitCancellation(3));
      && cancelled.books.invoice.status.CANCELLED?
      && Next(cancelled, Commit(1)).books.invoice.status.PARTIALLY_PAID?
      && Recorded(Next(cancelled, Commit(1)).books.payments) == Recorded(s.books.payments) + amountMinor
  {
    var read := Next(s, ReadPayment(1, amountMinor, MANUAL));
    PartRead(s, amountMinor);
    CancelledUnpaid(read);
    CommittedLate(Both(read, ReadCancel(3), CommitCancellation(3)), read.flights[1]);
  }

  lemma PartRead(s: State, amountMinor: int)
    requires s.flights == map[] && s.books.invoice.status.SENT? && 0 < amountMinor < s.books.invoice.balanceMinor
    ensures Next(s, ReadPayment(1, amountMinor, MANUAL)) == s.(flights := map[1 :=
      Recorder(Recording(amountMinor, s.books.invoice.balanceMinor, PARTIALLY_PAID), MANUAL, Staff, Recorded(s.books.payments))])
  {
  }

  lemma CommittedLate(s: State, f: Flight)
    requires 1 in s.flights && s.flights[1] == f && f.Recorder? && f.origin.Staff?
    requires f.recording.balanceRead == s.books.invoice.balanceMinor
    ensures Next(s, Commit(1)).books.invoice.status == f.recording.to
    ensures Recorded(Next(s, Commit(1)).books.payments) == Recorded(s.books.payments) + f.recording.amountMinor
  {
    RecordedAppend(s.books.payments,
      Payment(ManualKey(|s.books.payments|), f.origin, f.via, f.recording.amountMinor, SETTLED, None, None));
  }
}
