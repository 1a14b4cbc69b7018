/** What staff do to an invoice, with nothing between the separate reads and writes. */
module LedgerStaff {
  import opened Common
  import opened InvoiceTransitions
  import opened Money
  import opened Ledger
  import opened LedgerRuns

  /** A settled payment by staff, as undisturbed steps leave it. */
  function Paid(b: Books, amountMinor: int, via: Method, origin: Origin): Books {
    b.(invoice := b.invoice.(
         status := if amountMinor == b.invoice.balanceMinor then PAID else PARTIALLY_PAID,
         balanceMinor := b.invoice.balanceMinor - amountMinor, previousStatus := None),
       payments := b.payments + [Payment(ManualKey(|b.payments|), origin, via, amountMinor, SETTLED, None, None)])
  }

  lemma UndisturbedPayment(s: State, op: nat, amountMinor: int, via: Method)
    requires op !in s.flights
    ensures Both(s, ReadPayment(op, amountMinor, via), Commit(op))
         == if TakesPayment(s.books.invoice, amountMinor) then s.(books := Paid(s.books, amountMinor, via, Staff)) else s
  {
    var read := ReadPayment(op, amountMinor, via);
    if Reads(s.books, read).Some? {
      assert s.flights[op := Reads(s.books, read).value] - {op} == s.flights;
    }
  }

  lemma UndisturbedCancel(s: State, op: nat)
    requires op !in s.flights
    ensures var i := s.books.invoice;
      Both(s, ReadCancel(op), CommitCancellation(op))
      == if (i.status.DRAFT? || i.status.SENT? || i.status.VIEWED? || i.status.PENDING_PAYMENT?) && i.totalMinor <= i.balanceMinor
         then s.(books := s.books.(invoice := i.(status := InvoiceStatus.CANCELLED, previousStatus := None))) else s
  {
    if Reads(s.books, ReadCancel(op)).Some? {
      assert s.flights[op := Canceller(s.books.invoice.status)] - {op} == s.flights;
    }
  }

  predicate Undecided(b: Books, c: nat) {
    c < |b.checks| && (b.checks[c].status.SUBMITTED? || b.checks[c].status.UNDER_REVIEW?)
  }

  function Decided(b: Books, c: nat, verdict: CheckStatus): Books
    requires c < |b.checks|
  {
    b.(checks := b.checks[c := b.checks[c].(status := verdict)])
  }

  lemma UndisturbedRejection(s: State, op: nat, c: nat)
    requires op !in s.flights
    ensures Both(s, BeginRejection(op, c), Close(op))
         == if Undecided(s.books, c) then s.(books := Decided(s.books, c, REJECTED)) else s
  {
    if Undecided(s.books, c) {
      assert s.flights[op := Closer(c, REJECTED)] - {op} == s.flights;
    }
  }

  /** The claim can be recorded as it stands. */
  predicate Recordable(b: Books, c: nat)
    requires c < |b.checks|
  {
    IsSafe(b.checks[c].amountMinor) && TakesPayment(b.invoice, b.checks[c].amountMinor)
  }

  function RecordingOf(b: Books, c: nat): Flight
    requires c < |b.checks| && Recordable(b, c)
  {
    ReadFor(b, b.checks[c].amountMinor, CHECK, Approval(c)).value
  }

  lemma ApprovalBegins(s: State, op: nat, c: nat)
    requires op !in s.flights
    ensures Next(s, BeginApproval(op, c))
         == if Undecided(s.books, c) then s.(flights := s.flights[op := Approver(c, s.books.checks[c].amountMinor)]) else s
  {
  }

  lemma ApprovalReads(s: State, op: nat, c: nat)
    requires c < |s.books.checks| && op in s.flights && s.flights[op] == Approver(c, s.books.checks[c].amountMinor)
    ensures Next(s, ReadApproval(op))
         == s.(flights := if Recordable(s.books, c) then s.flights[op := RecordingOf(s.books, c)] else s.flights - {op})
  {
    ApprovedAmountIs(s.books.checks[c].amountMinor, s.books.invoice.currency);
  }

  lemma ApprovalCommits(s: State, op: nat, c: nat)
    requires c < |s.books.checks| && Recordable(s.books, c) && op in s.flights && s.flights[op] == RecordingOf(s.books, c)
    ensures Next(s, Commit(op))
         == s.(books := Paid(s.books, s.books.checks[c].amountMinor, CHECK, Approval(c)), flights := s.flights[op := Closer(c, APPROVED)])
  {
  }

  lemma ApprovalCloses(s: State, op: nat, c: nat)
    requires Undecided(s.books, c) && op in s.flights && s.flights[op] == Closer(c, APPROVED)
    ensures Next(s, Close(op)) == s.(books := Decided(s.books, c, APPROVED), flights := s.flights - {op})
  {
  }

  /** Its first two steps leave what is to be recorded, or nothing. */
  lemma UndisturbedApprovalRead(s: State, op: nat, c: nat)
    requires op !in s.flights
    ensures Both(s, BeginApproval(op, c), ReadApproval(op))
         == if Undecided(s.books, c) && Recordable(s.books, c) then s.(flights := s.flights[op := RecordingOf(s.books, c)]) else s
  {
    var begun := Next(s, BeginApproval(op, c));
    ApprovalBegins(s, op, c);
    if Undecided(s.books, c) {
      ApprovalReads(begun, op, c);
      Replaced(s.flights, op, begun.flights[op]);
      if Recordable(s.books, c) {
        assert begun.flights[op := RecordingOf(s.books, c)] == s.flights[op := RecordingOf(s.books, c)];
      }
    } else {
      NothingToRead(s, op);
    }
  }

  lemma Replaced(flights: map<nat, Flight>, op: nat, f: Flight)
    requires op !in flights
    ensures flights[op := f] - {op} == flights
  {
  }

  lemma NothingToRead(s: State, op: nat)
    requires op !in s.flights
    ensures Next(s, ReadApproval(op)) == s
  {
  }

  /** Its last two record the whole claim and close the submission. */
  lemma UndisturbedApprovalWrite(s: State, op: nat, c: nat)
    requires Undecided(s.books, c) && Recordable(s.books, c) && op in s.flights && s.flights[op] == RecordingOf(s.books, c)
    ensures Both(s, Commit(op), Close(op))
         == s.(books := Decided(Paid(s.books, s.books.checks[c].amountMinor, CHECK, Approval(c)), c, APPROVED),
               flights := s.flights - {op})
  {
    ApprovalCommits(s, op, c);
    var paid := Paid(s.books, s.books.checks[c].amountMinor, CHECK, Approval(c));
    var committed := s.(books := paid, flights := s.flights[op := Closer(c, APPROVED)]);
    ApprovalCloses(committed, op, c);
    assert committed.flights - {op} == s.flights - {op};
  }
}
