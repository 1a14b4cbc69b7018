/**
 * The payment, invoice and check services as they run: reads, decisions and writes in source order
 * over the rows of one invoice, each proved to commit what the ledger says it commits.
 */
module LedgerService {
  import opened Common
  import opened InvoiceTransitions
  import opened Money
  import A = ParsedAmounts
  import L = Ledger
  import R = LedgerRuns

  /** A row still waiting for its reference holds none. */
  lemma PendingHoldsNone(saved: seq<L.Payment>, pending: L.Payment, reference: string)
    requires pending.gatewayReference.None?
    ensures L.ReferenceTaken(saved + [pending], reference) <==> L.ReferenceTaken(saved, reference)
  {
    if L.ReferenceTaken(saved, reference) {
      var i :| 0 <= i < |saved| && saved[i].gatewayReference == Some(reference);
      assert (saved + [pending])[i].gatewayReference == Some(reference);
    }
  }

  class InvoiceAccount {
    const totalMinor: int
    const lineItemCount: nat
    const customerHasEmail: bool
    const currency: Currency
    var status: InvoiceStatus
    var previousStatus: Option<InvoiceStatus>
    var balanceMinor: int
    var payments: seq<L.Payment>
    var checks: seq<L.Submission>

    ghost function Books(): L.Books
      reads this
    {
      L.Books(
        L.Invoice(status, previousStatus, totalMinor, balanceMinor, lineItemCount, customerHasEmail, currency),
        payments, checks)
    }

    constructor (totalMinor: int, lineItemCount: nat, customerHasEmail: bool, currency: Currency)
      ensures status.DRAFT? && previousStatus.None? && balanceMinor == totalMinor == this.totalMinor
      ensures payments == [] && checks == []
    {
      this.totalMinor, this.lineItemCount := totalMinor, lineItemCount;
      this.customerHasEmail, this.currency := customerHasEmail, currency;
      status, previousStatus, balanceMinor := DRAFT, None, totalMinor;
      payments, checks := [], [];
    }

    method FindPayment(reference: string) returns (r: Option<nat>)
      ensures r.Some? ==> r.value < |payments| && payments[r.value].gatewayReference == Some(reference)
      ensures r.None? <==> !L.ReferenceTaken(payments, reference)
    {
      var i := 0;
      while i < |payments|
        invariant i <= |payments|
        invariant forall k | 0 <= k < i :: payments[k].gatewayReference != Some(reference)
      {
        if payments[i].gatewayReference == Some(reference) { return Some(i); }
        i := i + 1;
      }
      return None;
    }

    /** Judges the status the caller read; the writes are unconditional. */
    method ApplySettlement(pid: nat, statusRead: InvoiceStatus, before: InvoiceStatus, result: L.IntentStatus, at: Time)
      requires pid < |payments|
      modifies this
      ensures Books() == L.SettleFrom(old(Books()), pid, statusRead, before, result, at)
    {
      var payment := payments[pid];
      match result {
        case SUCCEEDED =>
          payments := payments[pid := payment.(status := L.SETTLED, lastEventAt := Some(at))];
          match Evaluate(SETTLE_FULL, Context(statusRead, None, 0, totalMinor, 0, totalMinor, true)) {
            case Failure(_) => return;
            case Success(to) => status, balanceMinor, previousStatus := to, 0, None;
          }
        case FAILED =>
          payments := payments[pid := payment.(status := L.PaymentStatus.FAILED, lastEventAt := Some(at))];
          match Evaluate(PAYMENT_FAILED, Context(statusRead, Some(before), 0, totalMinor, totalMinor, 0, true)) {
            case Failure(_) => return;
            case Success(to) => status, previousStatus := to, None;
          }
        case _ =>
          payments := payments[pid := payment.(status := L.PaymentStatus.PROCESSING, lastEventAt := Some(at))];
      }
    }

    /** One scoped transaction: a thrown gateway error, or a reference already in use, undoes every write. */
    method CreateIntent(via: L.Method, enabled: bool, chargeMinor: int, nonce: string, gateway: L.Key -> L.Answer)
      returns (reply: Option<L.Reply>, called: bool)
      modifies this
      ensures L.Attempt(Books(), reply, called)
           == L.CreateIntent(old(Books()), via, enabled, chargeMinor, nonce, gateway(L.AttemptKey(chargeMinor, nonce)))
      ensures called <==>
        && enabled && (forall p | p in old(payments) :: p.key != L.AttemptKey(chargeMinor, nonce))
        && old(status) in {SENT, VIEWED, PARTIALLY_PAID, PENDING_PAYMENT} && 0 < old(balanceMinor)
      ensures called ==>
        var answer := gateway(L.AttemptKey(chargeMinor, nonce));
        if answer.Threw? || L.ReferenceTaken(old(payments), answer.reference) then reply.None? && Books() == old(Books())
        else
          && reply == Some(L.Reply(answer.status, status))
          && |payments| == |old(payments)| + 1 && payments[..|old(payments)|] == old(payments)
          && payments[|old(payments)|].key == L.AttemptKey(chargeMinor, nonce)
          && payments[|old(payments)|].via == via && payments[|old(payments)|].amountMinor == chargeMinor
          && payments[|old(payments)|].gatewayReference == Some(answer.reference)
    {
      reply, called := None, false;
      if !enabled { return; }
      var key := L.AttemptKey(chargeMinor, nonce);
      var existing := L.IndexOfKey(payments, key);
      if existing.Some? {
        reply := Some(L.Reply(L.IntentStatusOf(payments[existing.value].status), status));
        return;
      }
      var decision := Evaluate(INITIATE_PAYMENT,
        Context(status, None, lineItemCount, totalMinor, balanceMinor, 0, customerHasEmail));
      if decision.Failure? { return; }
      var originalStatus, savedPrevious, saved := status, previousStatus, payments;
      var pid := |payments|;
      payments := payments + [L.Payment(key, L.Gateway, via, chargeMinor, L.INITIATED, None, None)];
      status, previousStatus := decision.value, Some(originalStatus);
      var answer := gateway(key);
      called := true;
      var holder: Option<nat> := None;
      if answer.Intent? {
        holder := FindPayment(answer.reference);
        PendingHoldsNone(saved, payments[pid], answer.reference);
      }
      if answer.Threw? || holder.Some? {
        status, previousStatus, payments := originalStatus, savedPrevious, saved;
        return;
      }
      payments := payments[pid := payments[pid].(gatewayReference := Some(answer.reference))];
      assert payments ==
        saved + [L.Payment(key, L.Gateway, via, chargeMinor, L.INITIATED, Some(answer.reference), None)];
      ApplySettlement(pid, decision.value, originalStatus, answer.status, answer.occurredAt);
      reply := Some(L.Reply(answer.status, status));
    }

    /** The unscoped read of a webhook: what it will write, unless the event is refused, unknown, unmodelled or stale. */
    method ReadEvent(verified: bool, attributed: bool, reference: string, event: L.Event) returns (r: Option<R.Flight>)
      ensures !verified || !attributed || !L.ReferenceTaken(payments, reference) ==> r.None?
      ensures verified && attributed && L.ReferenceTaken(payments, reference) ==>
        exists pid :: 0 <= pid < |payments| && payments[pid].gatewayReference == Some(reference)
          && r == R.Reads(Books(), R.ReadEvent(0, pid, event))
    {
      if !verified || !attributed { return None; }
      var found := FindPayment(reference);
      if found.None? { return None; }
      var pid := found.value;
      if event.kind.UNKNOWN? { return None; }
      if payments[pid].lastEventAt.Some? && event.occurredAt <= payments[pid].lastEventAt.value { return None; }
      var result := if event.kind.PAYMENT_SUCCEEDED? then L.SUCCEEDED
                    else if event.kind.PAYMENT_FAILED? then L.IntentStatus.FAILED
                    else L.IntentStatus.PROCESSING;
      var before := if previousStatus.Some? then previousStatus.value else status;
      return Some(R.Settler(pid, result, event.occurredAt, before, status));
    }

    /** The scoped write that follows, whatever the invoice has become. */
    method Settle(f: R.Flight)
      requires f.Settler? && f.pid < |payments|
      modifies this
      ensures Books() == L.SettleFrom(old(Books()), f.pid, f.statusRead, f.before, f.result, f.at)
    {
      ApplySettlement(f.pid, f.statusRead, f.before, f.result, f.at);
    }

    /** With nothing in between, a webhook applies its event; one that is refused or unknown changes nothing. */
    method HandleWebhook(verified: bool, attributed: bool, reference: string, event: L.Event)
      modifies this
      ensures !verified || !attributed || !L.ReferenceTaken(old(payments), reference) ==> Books() == old(Books())
      ensures verified && attributed && L.ReferenceTaken(old(payments), reference) ==>
        exists pid :: 0 <= pid < |old(payments)| && old(payments)[pid].gatewayReference == Some(reference)
          && Books() == L.HandleEvent(old(Books()), pid, event)
    {
      var read := ReadEvent(verified, attributed, reference, event);
      if read.Some? { Settle(read.value); }
    }

    /** With nothing in between, the gateway's own answer is applied to an open payment. */
    method ConfirmClientResult(pid: nat, retrieved: L.IntentStatus, now: Time) returns (reply: L.Reply)
      requires pid < |payments|
      modifies this
      ensures Books() == L.ConfirmClientResult(old(Books()), pid, retrieved, now)
      ensures reply == L.Reply(L.IntentStatusOf(payments[pid].status), status)
    {
      if payments[pid].status.INITIATED? || payments[pid].status.PROCESSING? {
        if retrieved.SUCCEEDED? || retrieved.FAILED? {
          var before := if previousStatus.Some? then previousStatus.value else status;
          ApplySettlement(pid, status, before, retrieved, now);
        }
      }
      reply := L.Reply(L.IntentStatusOf(payments[pid].status), status);
    }

    /** The read half of recording a payment: the invoice as it stands, and the guard's decision on it. */
    method ReadForPayment(amount: string) returns (r: Option<L.Recording>)
      ensures ParseMinor(amount, currency).Failure? ==> r.None?
      ensures ParseMinor(amount, currency).Success? ==>
        match L.ReadForPayment(Books().invoice, ParseMinor(amount, currency).value)
        case Success(recording) => r == Some(recording)
        case Failure(_) => r.None?
    {
      var parsed := ParseMinor(amount, currency);
      if parsed.Failure? { return None; }
      var decision := Evaluate(RECORD_PAYMENT,
        Context(status, None, 0, totalMinor, balanceMinor, totalMinor - balanceMinor + parsed.value, true));
      if decision.Failure? { return None; }
      return Some(L.Recording(parsed.value, balanceMinor, decision.value));
    }

    /** The write half: conditional on the balance that was read. */
    method CommitPayment(r: L.Recording, via: L.Method, origin: L.Origin) returns (landed: bool)
      modifies this
      ensures match L.CommitPayment(old(Books()), r, via, origin)
              case Some(books) => landed && Books() == books
              case None => !landed && Books() == old(Books())
    {
      var newBalance := r.balanceRead - r.amountMinor;
      if balanceMinor != r.balanceRead { return false; }
      status, balanceMinor, previousStatus := r.to, newBalance, None;
      payments := payments + [L.Payment(L.ManualKey(|payments|), origin, via, r.amountMinor, L.SETTLED, None, None)];
      return true;
    }

    /**
     * With nothing in between: lands exactly for a text that denotes a representable amount, positive
     * and within the balance, on an issued invoice; that amount is taken off the balance and recorded.
     */
    method RecordManualPayment(amount: string, via: L.Method) returns (landed: bool)
      modifies this
      ensures !landed ==> Books() == old(Books())
      ensures landed <==>
        && old(status) in {SENT, VIEWED, PENDING_PAYMENT, PARTIALLY_PAID}
        && exists paid :: A.Denotes(amount, paid) && IsSafe(paid) && 0 < paid <= old(balanceMinor)
      ensures landed ==>
        && A.Denotes(amount, old(balanceMinor) - balanceMinor) && 0 < old(balanceMinor) - balanceMinor
        && status == (if balanceMinor == 0 then PAID else PARTIALLY_PAID) && previousStatus.None?
        && |payments| == |old(payments)| + 1 && payments[..|old(payments)|] == old(payments)
        && payments[|old(payments)|].amountMinor == old(balanceMinor) - balanceMinor
        && payments[|old(payments)|].status.SETTLED? && payments[|old(payments)|].via == via
        && payments[|old(payments)|].origin.Staff? && checks == old(checks)
    {
      A.ParseMeans(amount, currency);
      var read := ReadForPayment(amount);
      if read.None? { return false; }
      landed := CommitPayment(read.value, via, L.Staff);
    }

    method Issue() returns (issued: bool)
      modifies this`status
      ensures Books() == L.Issue(old(Books()))
      ensures issued <==> old(status).DRAFT? && lineItemCount >= 1 && totalMinor > 0 && customerHasEmail
      ensures issued ==> status.SENT?
    {
      var decision := Evaluate(ISSUE, Context(status, None, lineItemCount, totalMinor, balanceMinor, 0, customerHasEmail));
      if decision.Failure? { return false; }
      status := decision.value;
      return true;
    }

    /** With nothing in between, exactly an unpaid invoice that is not yet final can be cancelled. */
    method Cancel() returns (cancelled: bool)
      modifies this
      ensures cancelled <==>
        old(status) in {DRAFT, SENT, VIEWED, PENDING_PAYMENT} && old(balanceMinor) >= totalMinor
      ensures cancelled ==>
        status.CANCELLED? && previousStatus.None? && balanceMinor == old(balanceMinor) && payments == old(payments)
      ensures cancelled ==> L.CommitCancel(old(Books()), old(status)) == Some(Books())
      ensures !cancelled ==> Books() == old(Books())
    {
      var statusRead := status;
      var decision := Evaluate(CANCEL,
        Context(status, None, 0, totalMinor, balanceMinor, totalMinor - balanceMinor, true));
      if decision.Failure? { return false; }
      if status != statusRead { return false; }
      status, previousStatus := decision.value, None;
      return true;
    }

    method SubmitCheck(enabled: bool) returns (submitted: bool)
      modifies this`checks
      ensures Books() == L.SubmitCheck(old(Books()), enabled)
      ensures submitted <==> enabled && balanceMinor > 0
    {
      if !enabled || balanceMinor <= 0 { return false; }
      checks := checks + [L.Submission(balanceMinor, L.SUBMITTED)];
      return true;
    }

    method FinishReview(c: nat, verdict: L.CheckStatus) returns (written: bool)
      requires c < |checks|
      modifies this`checks
      ensures match L.FinishReview(old(Books()), c, verdict)
              case Some(books) => written && Books() == books
              case None => !written && Books() == old(Books())
    {
      if !checks[c].status.SUBMITTED? && !checks[c].status.UNDER_REVIEW? { return false; }
      checks := checks[c := checks[c].(status := verdict)];
      return true;
    }

    /**
     * Approval with nothing in between: the whole claimed amount is recorded and the submission
     * closed, or neither. It succeeds exactly when the submission is pending, the claim is still
     * the whole balance's worth or less, and the invoice still takes payments.
     */
    method Approve(c: nat) returns (approved: bool)
      requires c < |checks|
      modifies this
      ensures approved <==>
        && (old(checks)[c].status.SUBMITTED? || old(checks)[c].status.UNDER_REVIEW?)
        && old(status) in {SENT, VIEWED, PENDING_PAYMENT, PARTIALLY_PAID}
        && IsSafe(old(checks)[c].amountMinor) && 0 < old(checks)[c].amountMinor <= old(balanceMinor)
      ensures approved ==>
        && balanceMinor == old(balanceMinor) - old(checks)[c].amountMinor
        && checks == old(checks)[c := old(checks)[c].(status := L.APPROVED)]
        && status == (if balanceMinor == 0 then PAID else PARTIALLY_PAID) && previousStatus.None?
        && payments == old(payments) + [L.Payment(
             L.ManualKey(|old(payments)|), L.Approval(c), L.CHECK, old(checks)[c].amountMinor, L.SETTLED, None, None)]
      ensures !approved ==> Books() == old(Books())
    {
      var submission := checks[c];
      if !L.Pending(submission) { return false; }
      FormatParseRoundTrip(submission.amountMinor, currency);
      var text := FormatMinor(submission.amountMinor, currency);
      if text.Failure? { return false; }
      var read := ReadForPayment(text.value);
      if read.None? { return false; }
      var landed := CommitPayment(read.value, L.CHECK, L.Approval(c));
      approved := FinishReview(c, L.APPROVED);
    }

    method Reject(c: nat, note: string) returns (rejected: bool)
      requires c < |checks|
      modifies this`checks
      ensures rejected <==> note != "" && (old(checks)[c].status.SUBMITTED? || old(checks)[c].status.UNDER_REVIEW?)
      ensures checks == if rejected then old(checks)[c := old(checks)[c].(status := L.REJECTED)] else old(checks)
    {
      if note == "" { return false; }
      if !L.Pending(checks[c]) { return false; }
      rejected := FinishReview(c, L.REJECTED);
    }
  }
}
