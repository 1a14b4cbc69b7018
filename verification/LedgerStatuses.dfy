/** What the invoice status means over every interleaving: exactly which late writes undo PAID and CANCELLED. */
module LedgerStatuses {
  import opened Common
  import opened InvoiceTransitions
  import opened Money
  import opened Ledger
  import opened LedgerRuns

  /** The statuses a payment attempt can start from, hence the only ones ever recorded as previous. */
  predicate Payable(status: InvoiceStatus) {
    status.SENT? || status.VIEWED? || status.PARTIALLY_PAID? || status.PENDING_PAYMENT?
  }

  // --- What holds whatever comes late ----------------------------------------------------

  ghost predicate RegularInvoice(i: Invoice) {
    && (i.previousStatus.Some? ==> Payable(i.previousStatus.value))
    && (i.status.PAID? ==> i.balanceMinor == 0)
    && (!i.status.DRAFT? && !i.status.CANCELLED? ==> i.totalMinor > 0)
  }

  /** What was read is what a regular invoice can show, and only an issued one shows more than a draft. */
  ghost predicate RegularFlight(i: Invoice, f: Flight) {
    match f
    case Settler(_, _, _, before, statusRead) =>
      (statusRead.PENDING_PAYMENT? ==> Payable(before)) && (Settleable(statusRead) ==> i.totalMinor > 0)
    case Starter(_, _, _, statusRead) => Payable(statusRead) && i.totalMinor > 0
    case Marker(to) => (to.SENT? || to.VIEWED?) && i.totalMinor > 0
    case Canceller(statusRead) => statusRead.DRAFT? || statusRead.SENT? || statusRead.VIEWED? || statusRead.PENDING_PAYMENT?
    case _ => true
  }

  ghost predicate Regular(s: State) {
    && Sound(s) && RegularInvoice(s.books.invoice)
    && forall op | op in s.flights :: RegularFlight(s.books.invoice, s.flights[op])
  }

  lemma ReadsRegular(s: State, step: Step)
    requires Regular(s) && IsRead(step) && Reads(s.books, step).Some?
    ensures RegularFlight(s.books.invoice, Reads(s.books, step).value)
  {
  }

  lemma SettledRegular(i: Invoice, statusRead: InvoiceStatus, before: InvoiceStatus, result: IntentStatus)
    requires RegularInvoice(i)
    requires (statusRead.PENDING_PAYMENT? ==> Payable(before)) && (Settleable(statusRead) ==> i.totalMinor > 0)
    ensures RegularInvoice(SettledFrom(i, statusRead, before, result))
  {
  }

  lemma StartRegular(b: Books, f: Flight, answer: Answer)
    requires RegularInvoice(b.invoice) && f.Starter? && RegularFlight(b.invoice, f)
    requires StartAttempt(b, f.via, f.chargeMinor, f.nonce, f.statusRead, answer).Some?
    ensures RegularInvoice(StartAttempt(b, f.via, f.chargeMinor, f.nonce, f.statusRead, answer).value.invoice)
  {
    var started := b.invoice.(status := InvoiceStatus.PENDING_PAYMENT, previousStatus := Some(f.statusRead));
    SettledRegular(started, InvoiceStatus.PENDING_PAYMENT, f.statusRead, answer.status);
  }

  lemma WritesRegular(s: State, step: Step)
    requires Regular(s) && !IsRead(step) && step.op in s.flights
    ensures RegularInvoice(Writes(s, step, s.flights[step.op]).books.invoice)
  {
    var f := s.flights[step.op];
    assert SoundFlight(s.books, f) && RegularFlight(s.books.invoice, f);
    if step.Settle? && f.Settler? {
      SettledRegular(s.books.invoice, f.statusRead, f.before, f.result);
    } else if step.Start? && f.Starter? && StartAttempt(s.books, f.via, f.chargeMinor, f.nonce, f.statusRead, step.answer).Some? {
      StartRegular(s.books, f, step.answer);
    }
  }

  lemma NewFlightRegular(s: State, step: Step, op: nat)
    requires Regular(s) && op in Next(s, step).flights
    ensures RegularFlight(Next(s, step).books.invoice, Next(s, step).flights[op])
  {
    StepTotal(s, step);
    OldOrNew(s, step, op);
    if IsRead(step) && Reads(s.books, step).Some? { ReadsRegular(s, step); }
  }

  /** A flight was there before, comes from a read, or belongs to a check under review. */
  lemma OldOrNew(s: State, step: Step, op: nat)
    requires op in Next(s, step).flights
    ensures var f := Next(s, step).flights[op];
      || (op in s.flights && s.flights[op] == f)
      || (IsRead(step) && Reads(s.books, step) == Some(f))
      || f.Recorder? || f.Closer?
  {
  }

  lemma StepRegular(s: State, step: Step)
    requires Regular(s)
    ensures Regular(Next(s, step))
  {
    StepKeeps(s, step);
    forall op | op in Next(s, step).flights ensures RegularFlight(Next(s, step).books.invoice, Next(s, step).flights[op]) {
      NewFlightRegular(s, step, op);
    }
    if !IsRead(step) && step.op in s.flights { WritesRegular(s, step); }
  }

  lemma {:induction false} RunRegular(s: State, steps: seq<Step>)
    requires Regular(s)
    ensures Regular(Run(s, steps))
  {
    if steps != [] {
      RunRegular(s, steps[..|steps| - 1]);
      StepRegular(Run(s, steps[..|steps| - 1]), steps[|steps| - 1]);
    }
  }

  // --- Leaving PAID -------------------------------------------------------------------------

  /** A failure whose guard, on what was read, sends the invoice back. */
  predicate FailsBack(f: Flight)
    requires f.Settler?
  {
    f.result.FAILED? && f.statusRead.PENDING_PAYMENT? && !f.before.PENDING_PAYMENT?
  }

  /** A success whose guard, on what was read, settles the invoice. */
  predicate SettlesFully(f: Flight)
    requires f.Settler?
  {
    f.result.SUCCEEDED? && Settleable(f.statusRead)
  }

  /** The attempt's writes go through. */
  predicate Starts(b: Books, f: Flight, answer: Answer)
    requires f.Starter?
  {
    StartAttempt(b, f.via, f.chargeMinor, f.nonce, f.statusRead, answer).Some?
  }

  /**
   * The late writes that take an invoice out of PAID: a failure that read it pending and sends it
   * back, an attempt that does not itself succeed, and the status of an issue or a first view.
   */
  predicate LeavesPaid(s: State, step: Step) {
    && s.books.invoice.status.PAID? && step.op in s.flights
    && var f := s.flights[step.op];
       || (step.Settle? && f.Settler? && FailsBack(f))
       || (step.Start? && f.Starter? && Starts(s.books, f, step.answer) && !step.answer.status.SUCCEEDED?)
       || (step.Mark? && f.Marker?)
  }

  lemma StartEnds(b: Books, f: Flight, answer: Answer)
    requires f.Starter? && Starts(b, f, answer)
    ensures var i := StartAttempt(b, f.via, f.chargeMinor, f.nonce, f.statusRead, answer).value.invoice;
      && (answer.status.SUCCEEDED? ==> i.status.PAID? && i.balanceMinor == 0)
      && (!answer.status.SUCCEEDED? ==> i.balanceMinor == b.invoice.balanceMinor)
      && (answer.status.FAILED? ==> i.status == f.statusRead)
      && (!answer.status.SUCCEEDED? && !answer.status.FAILED? ==> i.status.PENDING_PAYMENT?)
  {
  }

  /** A step takes the invoice out of PAID exactly when it is such a write, and no money moves either way. */
  lemma PaidStep(r: State, step: Step)
    requires Regular(r) && r.books.invoice.status.PAID?
    ensures !Next(r, step).books.invoice.status.PAID? <==> LeavesPaid(r, step)
    ensures Next(r, step).books.invoice.balanceMinor == 0
    ensures Recorded(Next(r, step).books.payments) == Recorded(r.books.payments)
  {
    if step.op in r.flights && !IsRead(step) {
      var f := r.flights[step.op];
      assert SoundFlight(r.books, f) && RegularFlight(r.books.invoice, f);
      if step.Settle? && f.Settler? {
        PaidSettle(r, step.op);
      } else if step.Start? && f.Starter? {
        PaidStart(r, step.op, step.answer);
      } else {
        PaidOtherWrite(r, step);
      }
    }
  }

  lemma PaidSettle(r: State, op: nat)
    requires r.books.invoice.status.PAID? && r.books.invoice.balanceMinor == 0 && op in r.flights && r.flights[op].Settler?
    requires SoundFlight(r.books, r.flights[op]) && RegularFlight(r.books.invoice, r.flights[op])
    ensures !Next(r, Settle(op)).books.invoice.status.PAID? <==> LeavesPaid(r, Settle(op))
    ensures Next(r, Settle(op)).books.invoice.balanceMinor == 0
    ensures Recorded(Next(r, Settle(op)).books.payments) == Recorded(r.books.payments)
  {
    var f := r.flights[op];
    SettlementEffect(r.books, f.pid, f.statusRead, f.before, f.result, f.at);
  }

  lemma PaidStart(r: State, op: nat, answer: Answer)
    requires r.books.invoice.status.PAID? && r.books.invoice.balanceMinor == 0 && op in r.flights && r.flights[op].Starter?
    requires RegularFlight(r.books.invoice, r.flights[op])
    ensures !Next(r, Start(op, answer)).books.invoice.status.PAID? <==> LeavesPaid(r, Start(op, answer))
    ensures Next(r, Start(op, answer)).books.invoice.balanceMinor == 0
    ensures Recorded(Next(r, Start(op, answer)).books.payments) == Recorded(r.books.payments)
  {
    var f := r.flights[op];
    if Starts(r.books, f, answer) {
      StartEnds(r.books, f, answer);
      StartEffect(r.books, f.via, f.chargeMinor, f.nonce, f.statusRead, answer);
    }
  }

  lemma PaidOtherWrite(r: State, step: Step)
    requires Regular(r) && r.books.invoice.status.PAID? && !IsRead(step) && step.op in r.flights
    requires !(step.Settle? && r.flights[step.op].Settler?) && !(step.Start? && r.flights[step.op].Starter?)
    ensures !Next(r, step).books.invoice.status.PAID? <==> LeavesPaid(r, step)
    ensures Next(r, step).books.invoice.balanceMinor == 0
    ensures Recorded(Next(r, step).books.payments) == Recorded(r.books.payments)
  {
    var f := r.flights[step.op];
    assert SoundFlight(r.books, f) && RegularFlight(r.books.invoice, f);
  }

  /** In every reachable state, the one way out of PAID; the balance stays at zero and no staff money is added after it. */
  lemma PaidLeftIff(s: State, steps: seq<Step>, step: Step)
    requires Initial(s) && Run(s, steps).books.invoice.status.PAID?
    ensures !Next(Run(s, steps), step).books.invoice.status.PAID? <==> LeavesPaid(Run(s, steps), step)
    ensures Next(Run(s, steps), step).books.invoice.balanceMinor == 0
    ensures Recorded(Next(Run(s, steps), step).books.payments) == Recorded(Run(s, steps).books.payments)
  {
    RunRegular(s, steps);
    PaidStep(Run(s, steps), step);
  }

  // --- PAID means cleared -----------------------------------------------------------------------

  predicate PaidIsCleared(s: State) {
    s.books.invoice.status.PAID? <==> s.books.invoice.balanceMinor == 0
  }

  /** Where the two agree, a step keeps them in agreement exactly when it is not such a late write. */
  lemma StepKeepsClearedIff(s: State, step: Step)
    requires Regular(s) && s.books.invoice.totalMinor > 0 && PaidIsCleared(s)
    ensures PaidIsCleared(Next(s, step)) <==> !LeavesPaid(s, step)
  {
    StepRegular(s, step);
    if s.books.invoice.status.PAID? {
      PaidStep(s, step);
    } else {
      UnpaidStep(s, step);
    }
  }

  /** Whatever brings the balance to zero writes PAID with it. */
  lemma UnpaidStep(s: State, step: Step)
    requires Regular(s) && s.books.invoice.balanceMinor != 0
    ensures Next(s, step).books.invoice.balanceMinor == 0 ==> Next(s, step).books.invoice.status.PAID?
  {
    if step.op in s.flights && !IsRead(step) {
      var f := s.flights[step.op];
      assert SoundFlight(s.books, f);
      if step.Start? && f.Starter? && Starts(s.books, f, step.answer) {
        StartEnds(s.books, f, step.answer);
      }
    }
  }

  ghost predicate NeverLeavesPaid(s: State, steps: seq<Step>) {
    forall k | 0 <= k < |steps| :: !LeavesPaid(Run(s, steps[..k]), steps[k])
  }

  ghost predicate AlwaysCleared(s: State, steps: seq<Step>) {
    forall k | 0 <= k <= |steps| :: PaidIsCleared(Run(s, steps[..k]))
  }

  lemma {:induction false} ClearedRun(s: State, steps: seq<Step>)
    requires Initial(s) && s.books.invoice.totalMinor > 0 && NeverLeavesPaid(s, steps)
    ensures PaidIsCleared(Run(s, steps))
  {
    if steps != [] {
      var prefix := steps[..|steps| - 1];
      forall k | 0 <= k < |prefix| ensures !LeavesPaid(Run(s, prefix[..k]), prefix[k]) {
        assert prefix[..k] == steps[..k];
      }
      ClearedRun(s, prefix);
      RunRegular(s, prefix);
      TotalFixed(s, prefix);
      ClearedStep(s, steps);
    }
  }

  lemma ClearedStep(s: State, steps: seq<Step>)
    requires steps != []
    requires var before := Run(s, steps[..|steps| - 1]);
      && Regular(before) && before.books.invoice.totalMinor > 0 && PaidIsCleared(before)
      && !LeavesPaid(before, steps[|steps| - 1])
    ensures PaidIsCleared(Run(s, steps))
  {
    StepKeepsClearedIff(Run(s, steps[..|steps| - 1]), steps[|steps| - 1]);
  }

  /** Over a run without such a write, an invoice with a positive total is PAID exactly when nothing is owed. */
  lemma PaidMeansCleared(s: State, steps: seq<Step>)
    requires Initial(s) && s.books.invoice.totalMinor > 0 && NeverLeavesPaid(s, steps)
    ensures var i := Run(s, steps).books.invoice; i.status.PAID? <==> i.balanceMinor == 0
  {
    ClearedRun(s, steps);
  }

  /** Over any run, PAID means cleared throughout exactly when no step is such a write. */
  lemma PaidMeansClearedIff(s: State, steps: seq<Step>)
    requires Initial(s) && s.books.invoice.totalMinor > 0
    ensures AlwaysCleared(s, steps) <==> NeverLeavesPaid(s, steps)
  {
    if NeverLeavesPaid(s, steps) {
      forall k | 0 <= k <= |steps| ensures PaidIsCleared(Run(s, steps[..k])) {
        forall j | 0 <= j < k ensures !LeavesPaid(Run(s, steps[..k][..j]), steps[..k][j]) {
          assert steps[..k][..j] == steps[..j];
        }
        ClearedRun(s, steps[..k]);
      }
    }
    if AlwaysCleared(s, steps) {
      forall k | 0 <= k < |steps| ensures !LeavesPaid(Run(s, steps[..k]), steps[k]) {
        RunRegular(s, steps[..k]);
        TotalFixed(s, steps[..k]);
        assert PaidIsCleared(Run(s, steps[..k])) && PaidIsCleared(Run(s, steps[..k + 1]));
        assert steps[..k + 1][..k] == steps[..k];
        StepKeepsClearedIff(Run(s, steps[..k]), steps[k]);
      }
    }
  }

  // --- Leaving CANCELLED ------------------------------------------------------------------------

  /**
   * The writes that revive a cancelled invoice, each by what it read before the cancellation: a
   * payment whose conditional write tests the balance alone; a gateway result that sends the invoice
   * back or settles it; an attempt; the status of an issue or a first view.
   */
  predicate Revives(s: State, step: Step) {
    && step.op in s.flights
    && var f := s.flights[step.op];
       || (step.Commit? && f.Recorder? && f.recording.balanceRead == s.books.invoice.balanceMinor)
       || (step.Settle? && f.Settler? && (FailsBack(f) || SettlesFully(f)))
       || (step.Start? && f.Starter? && Starts(s.books, f, step.answer))
       || (step.Mark? && f.Marker?)
  }

  /** In every reachable state, a cancelled invoice is revived exactly by those. */
  lemma CancelledUnlessRaced(s: State, steps: seq<Step>, step: Step)
    requires Initial(s) && Run(s, steps).books.invoice.status.CANCELLED?
    ensures !Next(Run(s, steps), step).books.invoice.status.CANCELLED? <==> Revives(Run(s, steps), step)
  {
    RunRegular(s, steps);
    CancelledStep(Run(s, steps), step);
  }

  lemma CancelledStep(r: State, step: Step)
    requires Regular(r) && r.books.invoice.status.CANCELLED?
    ensures !Next(r, step).books.invoice.status.CANCELLED? <==> Revives(r, step)
  {
    if step.op in r.flights && !IsRead(step) {
      var f := r.flights[step.op];
      assert SoundFlight(r.books, f) && RegularFlight(r.books.invoice, f);
      if step.Start? && f.Starter? {
        CancelledStart(r, step.op, step.answer);
      } else {
        CancelledOtherWrite(r, step);
      }
    }
  }

  lemma CancelledStart(r: State, op: nat, answer: Answer)
    requires r.books.invoice.status.CANCELLED? && op in r.flights && r.flights[op].Starter?
    requires RegularFlight(r.books.invoice, r.flights[op])
    ensures !Next(r, Start(op, answer)).books.invoice.status.CANCELLED? <==> Revives(r, Start(op, answer))
  {
    if Starts(r.books, r.flights[op], answer) { StartEnds(r.books, r.flights[op], answer); }
  }

  lemma CancelledOtherWrite(r: State, step: Step)
    requires r.books.invoice.status.CANCELLED? && !IsRead(step) && step.op in r.flights
    requires SoundFlight(r.books, r.flights[step.op]) && RegularFlight(r.books.invoice, r.flights[step.op])
    requires !(step.Start? && r.flights[step.op].Starter?)
    ensures !Next(r, step).books.invoice.status.CANCELLED? <==> Revives(r, step)
  {
  }
}
