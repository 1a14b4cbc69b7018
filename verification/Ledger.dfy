/**
 * One invoice with its payments and check submissions, and what each transaction does to them.
 * A function here is one committed transaction, or the read or the writes of one; a refusal or a
 * thrown error returns the books as they were.
 */
module Ledger {
  import opened Common
  import opened InvoiceTransitions
  import opened Money

  datatype Method = CARD | WALLET | ACH | CHECK | MANUAL

  datatype PaymentStatus =
    | INITIATED | PROCESSING | SETTLED | FAILED | REFUNDED | PARTIALLY_REFUNDED | CANCELLED

  datatype IntentStatus = REQUIRES_ACTION | PROCESSING | SUCCEEDED | FAILED | CANCELLED

  datatype EventType =
    | PAYMENT_SUCCEEDED | PAYMENT_FAILED | PAYMENT_PENDING | PAYMENT_CANCELLED
    | REFUND_SUCCEEDED | REFUND_FAILED | UNKNOWN

  /** Idempotency keys. The digest of (charge, nonce) is taken to be injective, the random key fresh. */
  datatype Key = AttemptKey(chargeMinor: int, nonce: string) | ManualKey(serial: nat)

  /** Who recorded a payment: a gateway attempt, staff by hand, or the approval of a check. */
  datatype Origin = Gateway | Staff | Approval(submission: nat)

  datatype Payment = Payment(
    key: Key,
    origin: Origin,
    via: Method,
    amountMinor: int,
    status: PaymentStatus,
    gatewayReference: Option<string>,
    lastEventAt: Option<Time>)

  datatype CheckStatus = SUBMITTED | UNDER_REVIEW | APPROVED | REJECTED

  datatype Submission = Submission(amountMinor: int, status: CheckStatus)

  datatype Invoice = Invoice(
    status: InvoiceStatus,
    previousStatus: Option<InvoiceStatus>,
    totalMinor: int,
    balanceMinor: int,
    lineItemCount: nat,
    customerHasEmail: bool,
    currency: Currency)

  datatype Books = Books(invoice: Invoice, payments: seq<Payment>, checks: seq<Submission>)

  // --- Gateway attempts -----------------------------------------------------------

  datatype Answer = Threw | Intent(reference: string, status: IntentStatus, occurredAt: Time)

  datatype Reply = Reply(gatewayStatus: IntentStatus, invoiceStatus: InvoiceStatus)

  /** The committed books, the reply (none for an error) and whether the gateway was called. */
  datatype Attempt = Attempt(books: Books, reply: Option<Reply>, called: bool)

  function IndexOfKey(payments: seq<Payment>, key: Key): (r: Option<nat>)
    ensures r.Some? ==> r.value < |payments| && payments[r.value].key == key
    ensures r.None? ==> forall p | p in payments :: p.key != key
  {
    if payments == [] then None
    else
      var last := |payments| - 1;
      if payments[last].key == key then Some(last) else IndexOfKey(payments[..last], key)
  }

  predicate ReferenceTaken(payments: seq<Payment>, reference: string) {
    exists i :: 0 <= i < |payments| && payments[i].gatewayReference == Some(reference)
  }

  function IntentStatusOf(status: PaymentStatus): IntentStatus {
    match status
    case SETTLED => SUCCEEDED
    case PARTIALLY_REFUNDED => SUCCEEDED
    case REFUNDED => SUCCEEDED
    case FAILED => IntentStatus.FAILED
    case _ => IntentStatus.PROCESSING
  }

  function GuardContext(i: Invoice, balance: int, settled: int): Context {
    Context(i.status, None, i.lineItemCount, i.totalMinor, balance, settled, i.customerHasEmail)
  }

  /** The status to fall back to: what was recorded when the attempt began, else the current one. */
  function BeforeAttempt(i: Invoice): InvoiceStatus {
    if i.previousStatus.Some? then i.previousStatus.value else i.status
  }

  /** What one gateway result does to the payment row, whatever the invoice guard then answers. */
  function SettledPayment(p: Payment, result: IntentStatus, at: Time): Payment {
    p.(status := match result
                 case SUCCEEDED => SETTLED
                 case FAILED => PaymentStatus.FAILED
                 case _ => PaymentStatus.PROCESSING,
       lastEventAt := Some(at))
  }

  /** The statuses in which a success settles the invoice. */
  predicate Settleable(status: InvoiceStatus) {
    status.PENDING_PAYMENT? || status.PARTIALLY_PAID?
  }

  /**
   * What it does to the invoice. The guard judges the status that was read, perhaps a transaction
   * earlier; the write is unconditional.
   */
  function SettledFrom(i: Invoice, statusRead: InvoiceStatus, before: InvoiceStatus, result: IntentStatus): (r: Invoice)
    ensures result.SUCCEEDED? ==>
      r == if Settleable(statusRead) then i.(status := PAID, balanceMinor := 0, previousStatus := None) else i
    ensures result.FAILED? ==>
      r == if statusRead.PENDING_PAYMENT? && !before.PENDING_PAYMENT? then i.(status := before, previousStatus := None) else i
    ensures !result.SUCCEEDED? && !result.FAILED? ==> r == i
  {
    var failed := Context(statusRead, Some(before), 0, i.totalMinor, i.totalMinor, 0, true);
    FailureReturnsPrevious(failed);
    match result
    case SUCCEEDED =>
      (match Evaluate(SETTLE_FULL, Context(statusRead, None, 0, i.totalMinor, 0, i.totalMinor, true))
       case Success(to) => i.(status := to, balanceMinor := 0, previousStatus := None)
       case Failure(_) => i)
    case FAILED =>
      (match Evaluate(Transition.PAYMENT_FAILED, failed)
       case Success(to) => i.(status := to, previousStatus := None)
       case Failure(_) => i)
    case _ => i
  }

  /** The same on the invoice just read. */
  function SettledInvoice(i: Invoice, before: InvoiceStatus, result: IntentStatus): Invoice {
    SettledFrom(i, i.status, before, result)
  }

  function SettleFrom(b: Books, pid: nat, statusRead: InvoiceStatus, before: InvoiceStatus, result: IntentStatus, at: Time): Books
    requires pid < |b.payments|
  {
    b.(payments := b.payments[pid := SettledPayment(b.payments[pid], result, at)],
       invoice := SettledFrom(b.invoice, statusRead, before, result))
  }

  function ApplySettlement(b: Books, pid: nat, before: InvoiceStatus, result: IntentStatus, at: Time): Books
    requires pid < |b.payments|
  {
    SettleFrom(b, pid, b.invoice.status, before, result, at)
  }

  /** The status an attempt starts from, if the method is offered, the key is new and the guard lets it. */
  function ReadForAttempt(b: Books, enabled: bool, key: Key): (r: Option<InvoiceStatus>)
    ensures r.Some? <==>
      && enabled && (forall p | p in b.payments :: p.key != key)
      && b.invoice.status in {SENT, VIEWED, PARTIALLY_PAID, InvoiceStatus.PENDING_PAYMENT} && 0 < b.invoice.balanceMinor
    ensures r.Some? ==> r.value == b.invoice.status
  {
    if !enabled || IndexOfKey(b.payments, key).Some? then None
    else
      match Evaluate(INITIATE_PAYMENT, GuardContext(b.invoice, b.invoice.balanceMinor, 0))
      case Success(_) => Some(b.invoice.status)
      case Failure(_) => None
  }

  /** Its writes, none of them conditional; a key or a reference in use by then, or a thrown answer, undoes them all. */
  function StartAttempt(b: Books, via: Method, chargeMinor: int, nonce: string, statusRead: InvoiceStatus, answer: Answer): Option<Books> {
    var key := AttemptKey(chargeMinor, nonce);
    if IndexOfKey(b.payments, key).Some? || answer.Threw? || ReferenceTaken(b.payments, answer.reference) then None
    else
      var started := b.(
        payments := b.payments + [Payment(key, Gateway, via, chargeMinor, INITIATED, Some(answer.reference), None)],
        invoice := b.invoice.(status := InvoiceStatus.PENDING_PAYMENT, previousStatus := Some(statusRead)));
      Some(ApplySettlement(started, |b.payments|, statusRead, answer.status, answer.occurredAt))
  }

  function CreateIntent(b: Books, via: Method, enabled: bool, chargeMinor: int, nonce: string, answer: Answer): Attempt {
    var key := AttemptKey(chargeMinor, nonce);
    if !enabled then Attempt(b, None, false)
    else
      match IndexOfKey(b.payments, key)
      case Some(i) =>
        Attempt(b, Some(Reply(IntentStatusOf(b.payments[i].status), b.invoice.status)), false)
      case None =>
        match Evaluate(INITIATE_PAYMENT, GuardContext(b.invoice, b.invoice.balanceMinor, 0))
        case Failure(_) => Attempt(b, None, false)
        case Success(to) =>
          if answer.Threw? || ReferenceTaken(b.payments, answer.reference) then Attempt(b, None, true)
          else
            var pid := |b.payments|;
            var original := b.invoice.status;
            var started := b.(
              payments := b.payments + [Payment(key, Gateway, via, chargeMinor, INITIATED, Some(answer.reference), None)],
              invoice := b.invoice.(status := to, previousStatus := Some(original)));
            var settled := ApplySettlement(started, pid, original, answer.status, answer.occurredAt);
            Attempt(settled, Some(Reply(answer.status, settled.invoice.status)), true)
  }

  // --- Webhooks -------------------------------------------------------------------

  datatype Event = Event(kind: EventType, occurredAt: Time)

  function ResultOf(kind: EventType): IntentStatus {
    match kind
    case PAYMENT_SUCCEEDED => SUCCEEDED
    case PAYMENT_FAILED => IntentStatus.FAILED
    case _ => IntentStatus.PROCESSING
  }

  /** An unmodelled event, or one no newer than the last applied, is dropped. */
  predicate Dropped(p: Payment, e: Event) {
    e.kind.UNKNOWN? || (p.lastEventAt.Some? && e.occurredAt <= p.lastEventAt.value)
  }

  function HandleEvent(b: Books, pid: nat, e: Event): (r: Books)
    requires pid < |b.payments|
    ensures |r.payments| == |b.payments|
  {
    if Dropped(b.payments[pid], e) then b
    else ApplySettlement(b, pid, BeforeAttempt(b.invoice), ResultOf(e.kind), e.occurredAt)
  }

  /** The client's confirmation: the gateway's current status, applied only to an open payment. */
  function ConfirmClientResult(b: Books, pid: nat, retrieved: IntentStatus, now: Time): (r: Books)
    requires pid < |b.payments|
    ensures |r.payments| == |b.payments|
  {
    var status := b.payments[pid].status;
    if !status.INITIATED? && !status.PROCESSING? then b
    else if !retrieved.SUCCEEDED? && !retrieved.FAILED? then b
    else ApplySettlement(b, pid, BeforeAttempt(b.invoice), retrieved, now)
  }

  // --- Staff actions ----------------------------------------------------------------

  /** What recordManualPayment holds between reading the invoice and its conditional write. */
  datatype Recording = Recording(amountMinor: int, balanceRead: int, to: InvoiceStatus)

  function ReadForPayment(i: Invoice, amountMinor: int): (r: Result<Recording, Refusal>)
    ensures r.Success? <==>
      i.status in {SENT, VIEWED, InvoiceStatus.PENDING_PAYMENT, PARTIALLY_PAID} && 0 < amountMinor <= i.balanceMinor
    ensures r.Success? ==>
      r.value == Recording(amountMinor, i.balanceMinor, if amountMinor == i.balanceMinor then PAID else PARTIALLY_PAID)
  {
    var settled := i.totalMinor - i.balanceMinor + amountMinor;
    var context := GuardContext(i, i.balanceMinor, settled).(lineItemCount := 0, customerHasDeliverableEmail := true);
    RecordedStatusFollowsBalance(context, amountMinor);
    match Evaluate(RECORD_PAYMENT, context)
    case Success(to) => Success(Recording(amountMinor, i.balanceMinor, to))
    case Failure(refusal) => Failure(refusal)
  }

  /** The conditional write: refused unless the balance is still the one that was read. */
  function CommitPayment(b: Books, r: Recording, via: Method, origin: Origin): Option<Books> {
    if b.invoice.balanceMinor != r.balanceRead then None
    else Some(b.(
      invoice := b.invoice.(status := r.to, balanceMinor := r.balanceRead - r.amountMinor, previousStatus := None),
      payments := b.payments + [Payment(ManualKey(|b.payments|), origin, via, r.amountMinor, SETTLED, None, None)]))
  }

  /** The status an invoice can be issued to, as it stands. */
  function ReadForIssue(i: Invoice): (r: Option<InvoiceStatus>)
    ensures r.Some? <==> i.status.DRAFT? && 1 <= i.lineItemCount && 0 < i.totalMinor && i.customerHasEmail
    ensures r.Some? ==> r.value.SENT?
  {
    match Evaluate(ISSUE, GuardContext(i, i.balanceMinor, 0))
    case Success(to) => Some(to)
    case Failure(_) => None
  }

  function ReadForView(i: Invoice): (r: Option<InvoiceStatus>)
    ensures r == if i.status.SENT? then Some(VIEWED) else None
  {
    match Evaluate(FIRST_VIEW, GuardContext(i, i.balanceMinor, 0))
    case Success(to) => Some(to)
    case Failure(_) => None
  }

  function Marked(b: Books, to: InvoiceStatus): Books {
    b.(invoice := b.invoice.(status := to))
  }

  function Issue(b: Books): Books {
    match ReadForIssue(b.invoice)
    case Some(to) => Marked(b, to)
    case None => b
  }

  function FirstView(b: Books): Books {
    match ReadForView(b.invoice)
    case Some(to) => Marked(b, to)
    case None => b
  }

  predicate MayCancel(i: Invoice)
    ensures MayCancel(i) <==> i.status in {DRAFT, SENT, VIEWED, InvoiceStatus.PENDING_PAYMENT} && i.totalMinor <= i.balanceMinor
  {
    Evaluate(CANCEL, GuardContext(i, i.balanceMinor, i.totalMinor - i.balanceMinor)).Success?
  }

  /** The conditional write of a cancellation that read the invoice in `statusRead`. */
  function CommitCancel(b: Books, statusRead: InvoiceStatus): Option<Books> {
    if b.invoice.status != statusRead then None
    else Some(b.(invoice := b.invoice.(status := InvoiceStatus.CANCELLED, previousStatus := None)))
  }

  // --- Checks ----------------------------------------------------------------------

  /** A customer's submission claims the whole balance that was read. */
  function Submitted(b: Books, claimedMinor: int): Books {
    b.(checks := b.checks + [Submission(claimedMinor, SUBMITTED)])
  }

  function SubmitCheck(b: Books, enabled: bool): Books {
    if !enabled || b.invoice.balanceMinor <= 0 then b else Submitted(b, b.invoice.balanceMinor)
  }

  predicate Pending(c: Submission) {
    c.status.SUBMITTED? || c.status.UNDER_REVIEW?
  }

  /** The amount an approval hands on, as text and back. */
  function ApprovedAmount(claimed: int, currency: Currency): Result<int, MoneyError> {
    match FormatMinor(claimed, currency)
    case Success(text) => ParseMinor(text, currency)
    case Failure(error) => Failure(error)
  }

  /** The way through text changes no amount that can be represented. */
  lemma ApprovedAmountIs(claimed: int, currency: Currency)
    ensures ApprovedAmount(claimed, currency) == if IsSafe(claimed) then Success(claimed) else Failure(UnsafeInteger)
  {
    FormatParseRoundTrip(claimed, currency);
  }

  function FinishReview(b: Books, c: nat, verdict: CheckStatus): (r: Option<Books>)
    requires c < |b.checks|
  {
    if Pending(b.checks[c]) then Some(b.(checks := b.checks[c := b.checks[c].(status := verdict)])) else None
  }
}
