/** The invoice state machine: one guard per transition, a decision and nothing else. */
module InvoiceTransitions {
  import opened Common

  datatype InvoiceStatus = DRAFT | SENT | VIEWED | PENDING_PAYMENT | PARTIALLY_PAID | PAID | CANCELLED

  datatype Transition =
    | ISSUE | FIRST_VIEW | INITIATE_PAYMENT | SETTLE_PARTIAL | SETTLE_FULL
    | PAYMENT_FAILED | CANCEL | RECORD_PAYMENT

  datatype Refusal =
    | ILLEGAL_FROM_STATUS | NO_LINE_ITEMS | NON_POSITIVE_TOTAL | NO_DELIVERABLE_EMAIL
    | ALREADY_SETTLED | BALANCE_NOT_CLEARED | BALANCE_ALREADY_CLEARED
    | SETTLED_PAYMENT_EXISTS | NO_PREVIOUS_STATUS | EXCEEDS_BALANCE

  datatype Context = Context(
    status: InvoiceStatus,
    previousStatus: Option<InvoiceStatus>,
    lineItemCount: nat,
    totalMinor: int,
    balanceMinor: int,
    settledMinor: int,
    customerHasDeliverableEmail: bool)

  function Allowed(t: Transition): set<InvoiceStatus> {
    match t
    case ISSUE => {DRAFT}
    case FIRST_VIEW => {SENT}
    case INITIATE_PAYMENT => {SENT, VIEWED, PARTIALLY_PAID, PENDING_PAYMENT}
    case SETTLE_PARTIAL => {PENDING_PAYMENT, PARTIALLY_PAID}
    case SETTLE_FULL => {PENDING_PAYMENT, PARTIALLY_PAID}
    case PAYMENT_FAILED => {PENDING_PAYMENT}
    case CANCEL => {DRAFT, SENT, VIEWED, PENDING_PAYMENT}
    case RECORD_PAYMENT => {SENT, VIEWED, PENDING_PAYMENT, PARTIALLY_PAID}
  }

  function Evaluate(t: Transition, c: Context): Result<InvoiceStatus, Refusal> {
    if c.status !in Allowed(t) then Failure(ILLEGAL_FROM_STATUS)
    else
      match t
      case ISSUE =>
        if c.lineItemCount < 1 then Failure(NO_LINE_ITEMS)
        else if c.totalMinor <= 0 then Failure(NON_POSITIVE_TOTAL)
        else if !c.customerHasDeliverableEmail then Failure(NO_DELIVERABLE_EMAIL)
        else Success(SENT)
      case FIRST_VIEW => Success(VIEWED)
      case INITIATE_PAYMENT =>
        if c.balanceMinor <= 0 then Failure(ALREADY_SETTLED) else Success(PENDING_PAYMENT)
      case SETTLE_PARTIAL =>
        if c.settledMinor <= 0 then Failure(BALANCE_NOT_CLEARED)
        else if c.settledMinor >= c.totalMinor then Failure(BALANCE_ALREADY_CLEARED)
        else Success(PARTIALLY_PAID)
      case SETTLE_FULL =>
        if c.settledMinor < c.totalMinor then Failure(BALANCE_NOT_CLEARED) else Success(PAID)
      case PAYMENT_FAILED =>
        if c.previousStatus.None? || c.previousStatus.value.PENDING_PAYMENT? then Failure(NO_PREVIOUS_STATUS)
        else Success(c.previousStatus.value)
      case CANCEL =>
        if c.settledMinor > 0 then Failure(SETTLED_PAYMENT_EXISTS) else Success(CANCELLED)
      case RECORD_PAYMENT =>
        if c.settledMinor <= c.totalMinor - c.balanceMinor then Failure(BALANCE_NOT_CLEARED)
        else if c.settledMinor > c.totalMinor then Failure(EXCEEDS_BALANCE)
        else Success(if c.settledMinor == c.totalMinor then PAID else PARTIALLY_PAID)
  }

  /** An amount recorded by staff is accepted exactly when it is positive and fits; the status follows the balance it leaves. */
  lemma RecordedStatusFollowsBalance(c: Context, amountMinor: int)
    requires c.settledMinor == c.totalMinor - c.balanceMinor + amountMinor
    ensures var r := Evaluate(RECORD_PAYMENT, c);
      && (r.Success? <==> c.status in {SENT, VIEWED, PENDING_PAYMENT, PARTIALLY_PAID} && 0 < amountMinor <= c.balanceMinor)
      && (r.Success? ==> r.value == if c.balanceMinor - amountMinor == 0 then PAID else PARTIALLY_PAID)
  {
  }

  /** Of the two settlements of an invoice awaiting one, exactly the one that fits a positive amount is accepted. */
  lemma OneSettlementFits(c: Context)
    requires c.totalMinor > 0
    ensures var part, full := Evaluate(SETTLE_PARTIAL, c), Evaluate(SETTLE_FULL, c);
      && (part.Success? || full.Success? <==> c.status in {PENDING_PAYMENT, PARTIALLY_PAID} && c.settledMinor > 0)
      && (part.Success? ==> part.value.PARTIALLY_PAID? && c.settledMinor < c.totalMinor)
      && (full.Success? ==> full.value.PAID? && c.settledMinor >= c.totalMinor)
  {
  }

  /** Each refusal names the first condition that failed, the status before anything else. */
  lemma RefusalNamesCause(t: Transition, c: Context)
    ensures var r := Evaluate(t, c);
      && (r == Failure(NO_LINE_ITEMS) <==> t.ISSUE? && c.status.DRAFT? && c.lineItemCount == 0)
      && (r == Failure(NON_POSITIVE_TOTAL) <==> t.ISSUE? && c.status.DRAFT? && c.lineItemCount > 0 && c.totalMinor <= 0)
      && (r == Failure(NO_DELIVERABLE_EMAIL) <==>
            t.ISSUE? && c.status.DRAFT? && c.lineItemCount > 0 && c.totalMinor > 0 && !c.customerHasDeliverableEmail)
      && (r == Failure(ALREADY_SETTLED) <==>
            t.INITIATE_PAYMENT? && c.status in {SENT, VIEWED, PARTIALLY_PAID, PENDING_PAYMENT} && c.balanceMinor <= 0)
      && (r == Failure(BALANCE_ALREADY_CLEARED) <==>
            t.SETTLE_PARTIAL? && c.status in {PENDING_PAYMENT, PARTIALLY_PAID} && c.settledMinor > 0
            && c.settledMinor >= c.totalMinor)
      && (r == Failure(SETTLED_PAYMENT_EXISTS) <==>
            t.CANCEL? && c.status in {DRAFT, SENT, VIEWED, PENDING_PAYMENT} && c.settledMinor > 0)
      && (r == Failure(NO_PREVIOUS_STATUS) <==>
            t.PAYMENT_FAILED? && c.status.PENDING_PAYMENT? && (c.previousStatus.None? || c.previousStatus.value.PENDING_PAYMENT?))
      && (r == Failure(EXCEEDS_BALANCE) <==>
            t.RECORD_PAYMENT? && c.status in {SENT, VIEWED, PENDING_PAYMENT, PARTIALLY_PAID}
            && c.settledMinor > c.totalMinor && c.settledMinor > c.totalMinor - c.balanceMinor)
      && (r == Failure(BALANCE_NOT_CLEARED) <==>
            match t
            case SETTLE_PARTIAL => c.status in {PENDING_PAYMENT, PARTIALLY_PAID} && c.settledMinor <= 0
            case SETTLE_FULL => c.status in {PENDING_PAYMENT, PARTIALLY_PAID} && c.settledMinor < c.totalMinor
            case RECORD_PAYMENT =>
              c.status in {SENT, VIEWED, PENDING_PAYMENT, PARTIALLY_PAID} && c.settledMinor <= c.totalMinor - c.balanceMinor
            case _ => false)
  {
  }

  /** A failed attempt returns to what was recorded before it, exactly from PENDING_PAYMENT and never to it. */
  lemma FailureReturnsPrevious(c: Context)
    ensures var r := Evaluate(PAYMENT_FAILED, c);
      && (r.Success? <==> c.status.PENDING_PAYMENT? && c.previousStatus.Some? && !c.previousStatus.value.PENDING_PAYMENT?)
      && (r.Success? ==> Some(r.value) == c.previousStatus)
  {
  }
}
