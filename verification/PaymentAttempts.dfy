/** Gateway attempts over time: idempotency, out-of-order delivery and the decline round trip. */
module PaymentAttempts {
  import opened Common
  import opened InvoiceTransitions
  import opened Ledger
  import opened LedgerRuns

  // --- Nothing recorded is ever lost -------------------------------------------------

  /** `later` holds every payment of `earlier` in its place; one without a reference is untouched. */
  ghost predicate Extends(earlier: seq<Payment>, later: seq<Payment>) {
    && |earlier| <= |later|
    && forall i | 0 <= i < |earlier| ::
         && later[i].key == earlier[i].key && later[i].origin == earlier[i].origin
         && later[i].amountMinor == earlier[i].amountMinor
         && later[i].gatewayReference == earlier[i].gatewayReference
         && (earlier[i].gatewayReference.None? ==> later[i] == earlier[i])
  }

  lemma StepExtends(s: State, step: Step)
    ensures Extends(s.books.payments, Next(s, step).books.payments)
  {
    if step.op in s.flights && step.Start? && s.flights[step.op].Starter? {
      StartExtends(s.books, s.flights[step.op], step.answer);
    }
  }

  lemma StartExtends(b: Books, f: Flight, answer: Answer)
    requires f.Starter?
    ensures var r := StartAttempt(b, f.via, f.chargeMinor, f.nonce, f.statusRead, answer);
      r.Some? ==> Extends(b.payments, r.value.payments)
  {
  }

  /** Payments only accumulate, and what staff recorded stays exactly as it was written. */
  lemma {:induction false} PaymentsPersist(s: State, steps: seq<Step>)
    ensures Extends(s.books.payments, Run(s, steps).books.payments)
  {
    if steps != [] {
      PaymentsPersist(s, steps[..|steps| - 1]);
      StepExtends(Run(s, steps[..|steps| - 1]), steps[|steps| - 1]);
    }
  }

  // --- Idempotency -------------------------------------------------------------------

  ghost predicate Committed(payments: seq<Payment>, key: Key) {
    exists i :: 0 <= i < |payments| && payments[i].key == key
  }

  /** An attempt that reached the gateway and got an answer leaves exactly one row under its key. */
  lemma AttemptCommits(b: Books, via: Method, chargeMinor: int, nonce: string, answer: Answer)
    ensures var a := CreateIntent(b, via, true, chargeMinor, nonce, answer);
      && (a.reply.Some? ==> Committed(a.books.payments, AttemptKey(chargeMinor, nonce)))
      && (a.reply.None? ==> a.books == b)
      && (a.called && a.reply.Some? ==>
            |a.books.payments| == |b.payments| + 1 && !Committed(b.payments, AttemptKey(chargeMinor, nonce)))
  {
    var a := CreateIntent(b, via, true, chargeMinor, nonce, answer);
    var key := AttemptKey(chargeMinor, nonce);
    match IndexOfKey(b.payments, key)
    case Some(i) => assert b.payments[i].key == key;
    case None => if a.reply.Some? { assert a.books.payments[|b.payments|].key == key; }
  }

  /** The gateway is called exactly for an offered method, a new key and an issued invoice that still owes money. */
  lemma AttemptCalledIff(b: Books, via: Method, enabled: bool, chargeMinor: int, nonce: string, answer: Answer)
    ensures CreateIntent(b, via, enabled, chargeMinor, nonce, answer).called <==>
      && enabled && !Committed(b.payments, AttemptKey(chargeMinor, nonce))
      && b.invoice.status in {SENT, VIEWED, PARTIALLY_PAID, InvoiceStatus.PENDING_PAYMENT}
      && 0 < b.invoice.balanceMinor
  {
    var key := AttemptKey(chargeMinor, nonce);
    match IndexOfKey(b.payments, key)
    case Some(i) => assert b.payments[i].key == key;
    case None => assert forall k | 0 <= k < |b.payments| :: b.payments[k] in b.payments;
  }

  /**
   * Once called, an answer that names a reference of its own is recorded whole: the row of the
   * attempt, and the invoice paid, back where it was, or waiting.
   */
  lemma AttemptRecords(b: Books, via: Method, chargeMinor: int, nonce: string, answer: Answer)
    requires CreateIntent(b, via, true, chargeMinor, nonce, answer).called
    ensures var a := CreateIntent(b, via, true, chargeMinor, nonce, answer);
      && (a.reply.Some? <==> answer.Intent? && forall p | p in b.payments :: p.gatewayReference != Some(answer.reference))
      && (a.reply.Some? ==>
            && a.reply.value.gatewayStatus == answer.status && a.reply.value.invoiceStatus == a.books.invoice.status
            && |a.books.payments| == |b.payments| + 1 && a.books.payments[..|b.payments|] == b.payments
            && RecordedAs(a.books.payments[|b.payments|], AttemptKey(chargeMinor, nonce), via, chargeMinor, answer)
            && a.books.checks == b.checks
            && a.books.invoice == b.invoice.(
                 status := if answer.status.SUCCEEDED? then PAID
                           else if answer.status.FAILED? then b.invoice.status else InvoiceStatus.PENDING_PAYMENT,
                 balanceMinor := if answer.status.SUCCEEDED? then 0 else b.invoice.balanceMinor,
                 previousStatus := if answer.status.SUCCEEDED? then None
                                   else if answer.status.FAILED? && !b.invoice.status.PENDING_PAYMENT? then None
                                   else Some(b.invoice.status)))
  {
    if answer.Intent? {
      assert ReferenceTaken(b.payments, answer.reference) <==>
        exists p :: p in b.payments && p.gatewayReference == Some(answer.reference) by {
        if p :| p in b.payments && p.gatewayReference == Some(answer.reference) {
          var i :| 0 <= i < |b.payments| && b.payments[i] == p;
        }
      }
    }
  }

  ghost predicate RecordedAs(row: Payment, key: Key, via: Method, chargeMinor: int, answer: Answer)
    requires answer.Intent?
  {
    && row.key == key && row.origin.Gateway? && row.via == via && row.amountMinor == chargeMinor
    && row.gatewayReference == Some(answer.reference) && row.lastEventAt == Some(answer.occurredAt)
    && (row.status.SETTLED? <==> answer.status.SUCCEEDED?)
    && (row.status.FAILED? <==> answer.status.FAILED?)
    && (row.status.PROCESSING? <==> !answer.status.SUCCEEDED? && !answer.status.FAILED?)
  }

  /** What a replay reports of the row it found. */
  ghost predicate Reports(gatewayStatus: IntentStatus, row: PaymentStatus) {
    && (gatewayStatus.SUCCEEDED? <==> row in {SETTLED, REFUNDED, PARTIALLY_REFUNDED})
    && (gatewayStatus.FAILED? <==> row.FAILED?)
    && (gatewayStatus.PROCESSING? <==> row in {INITIATED, PaymentStatus.PROCESSING, PaymentStatus.CANCELLED})
  }

  lemma ReplayReports(b: Books, via: Method, chargeMinor: int, nonce: string, answer: Answer)
    requires Committed(b.payments, AttemptKey(chargeMinor, nonce))
    ensures var a := CreateIntent(b, via, true, chargeMinor, nonce, answer);
      && a.books == b && !a.called && a.reply.Some? && a.reply.value.invoiceStatus == b.invoice.status
      && exists p :: p in b.payments && p.key == AttemptKey(chargeMinor, nonce)
           && Reports(a.reply.value.gatewayStatus, p.status)
  {
    var key := AttemptKey(chargeMinor, nonce);
    var i :| 0 <= i < |b.payments| && b.payments[i].key == key;
    assert b.payments[i] in b.payments;
    var found := b.payments[IndexOfKey(b.payments, key).value];
    assert found in b.payments && Reports(IntentStatusOf(found.status), found.status);
  }

  /**
   * Replaying a committed nonce, any run later and with any method that quotes the same charge,
   * changes nothing, never calls the gateway and reports the row under its key.
   */
  lemma ReplayChangesNothing(s: State, steps: seq<Step>, via: Method, chargeMinor: int, nonce: string, answer: Answer)
    requires Committed(s.books.payments, AttemptKey(chargeMinor, nonce))
    ensures var later := Run(s, steps).books; var a := CreateIntent(later, via, true, chargeMinor, nonce, answer);
      && a.books == later && !a.called && a.reply.Some? && a.reply.value.invoiceStatus == later.invoice.status
      && exists p :: p in later.payments && p.key == AttemptKey(chargeMinor, nonce)
           && Reports(a.reply.value.gatewayStatus, p.status)
  {
    PaymentsPersist(s, steps);
    var later := Run(s, steps).books;
    var i :| 0 <= i < |s.books.payments| && s.books.payments[i].key == AttemptKey(chargeMinor, nonce);
    assert later.payments[i].key == AttemptKey(chargeMinor, nonce);
    ReplayReports(later, via, chargeMinor, nonce, answer);
  }

  /** Over every run from a new invoice, a key names at most one payment. */
  lemma OneRowPerKey(s: State, steps: seq<Step>, i: nat, j: nat)
    requires Initial(s) && i < |Run(s, steps).books.payments| && j < |Run(s, steps).books.payments|
    requires Run(s, steps).books.payments[i].key == Run(s, steps).books.payments[j].key
    ensures i == j
  {
    RunKeeps(s, steps);
  }

  // --- Delivery order ------------------------------------------------------------------

  function Deliver(b: Books, pid: nat, events: seq<Event>): (r: Books)
    requires pid < |b.payments|
    ensures |r.payments| == |b.payments|
  {
    if events == [] then b
    else HandleEvent(Deliver(b, pid, events[..|events| - 1]), pid, events[|events| - 1])
  }

  /** Distinct times: two modelled events at one time are the same event, delivered twice. */
  ghost predicate DistinctTimes(events: seq<Event>) {
    forall e, f | e in events && f in events && !e.kind.UNKNOWN? && !f.kind.UNKNOWN? && e.occurredAt == f.occurredAt :: e == f
  }

  /** `p'` is what `p` becomes when the latest fresh event of the delivery is the only one applied. */
  ghost predicate LatestWins(p: Payment, events: seq<Event>, p': Payment) {
    || (p' == p && forall e | e in events :: Dropped(p, e))
    || (exists e :: e in events && IsLatestFresh(p, events, e) && p' == SettledPayment(p, ResultOf(e.kind), e.occurredAt))
  }

  ghost predicate IsLatestFresh(p: Payment, events: seq<Event>, e: Event) {
    && !Dropped(p, e)
    && forall f | f in events && !Dropped(p, f) :: f.occurredAt <= e.occurredAt
  }

  /** Whatever the invoice guard answers, the payment row ends as its latest fresh event left it. */
  lemma {:induction false} DeliveryKeepsLatest(b: Books, pid: nat, events: seq<Event>)
    requires pid < |b.payments|
    ensures LatestWins(b.payments[pid], events, Deliver(b, pid, events).payments[pid])
  {
    if events != [] {
      var prefix, last := events[..|events| - 1], events[|events| - 1];
      DeliveryKeepsLatest(b, pid, prefix);
      assert events == prefix + [last];
      LatestStep(b.payments[pid], prefix, last, Deliver(b, pid, prefix).payments[pid]);
      var before := Deliver(b, pid, prefix);
      assert Deliver(b, pid, events).payments[pid]
          == if Dropped(before.payments[pid], last) then before.payments[pid]
             else SettledPayment(before.payments[pid], ResultOf(last.kind), last.occurredAt);
    }
  }

  lemma LatestStep(p: Payment, prefix: seq<Event>, last: Event, q: Payment)
    requires LatestWins(p, prefix, q)
    ensures var r := if Dropped(q, last) then q else SettledPayment(q, ResultOf(last.kind), last.occurredAt);
      LatestWins(p, prefix + [last], r)
  {
    var events := prefix + [last];
    if q == p && forall e | e in prefix :: Dropped(p, e) {
      if !Dropped(p, last) {
        assert last in events && IsLatestFresh(p, events, last);
      }
    } else {
      var e :| e in prefix && IsLatestFresh(p, prefix, e) && q == SettledPayment(p, ResultOf(e.kind), e.occurredAt);
      if Dropped(q, last) {
        assert e in events && IsLatestFresh(p, events, e);
      } else {
        assert last in events && IsLatestFresh(p, events, last);
        assert SettledPayment(q, ResultOf(last.kind), last.occurredAt)
            == SettledPayment(p, ResultOf(last.kind), last.occurredAt);
      }
    }
  }

  /** Two deliveries of the same events, in any order and with any repetitions, end the same. */
  lemma DeliveriesConverge(b: Books, c: Books, pid: nat, first: seq<Event>, second: seq<Event>)
    requires pid < |b.payments| && pid < |c.payments| && b.payments[pid] == c.payments[pid]
    requires DistinctTimes(first) && forall e :: e in first <==> e in second
    ensures Deliver(b, pid, first).payments[pid] == Deliver(c, pid, second).payments[pid]
  {
    DeliveryKeepsLatest(b, pid, first);
    DeliveryKeepsLatest(c, pid, second);
    LatestIsUnique(b.payments[pid], first, second,
      Deliver(b, pid, first).payments[pid], Deliver(c, pid, second).payments[pid]);
  }

  lemma LatestIsUnique(p: Payment, first: seq<Event>, second: seq<Event>, q: Payment, r: Payment)
    requires DistinctTimes(first) && forall e :: e in first <==> e in second
    requires LatestWins(p, first, q) && LatestWins(p, second, r)
    ensures q == r
  {
    if e :| e in first && IsLatestFresh(p, first, e) && q == SettledPayment(p, ResultOf(e.kind), e.occurredAt) {
      var f :| f in second && IsLatestFresh(p, second, f) && r == SettledPayment(p, ResultOf(f.kind), f.occurredAt);
      assert e.occurredAt == f.occurredAt;
      assert f in first;
    }
  }

  /**
   * The invoice does not converge: a success followed by a later failure, delivered in order, leaves
   * it paid; delivered the other way round, it goes back to where it was before the attempt.
   */
  lemma InvoiceDependsOnOrder(b: Books, pid: nat, t1: Time, t2: Time)
    requires pid < |b.payments| && b.payments[pid].lastEventAt.None? && t1 < t2
    requires b.invoice.status.PENDING_PAYMENT? && b.invoice.previousStatus == Some(SENT)
    ensures var won, lost := Event(PAYMENT_SUCCEEDED, t1), Event(EventType.PAYMENT_FAILED, t2);
      var inOrder := HandleEvent(HandleEvent(b, pid, won), pid, lost);
      var reversed := HandleEvent(HandleEvent(b, pid, lost), pid, won);
      && inOrder.payments[pid] == reversed.payments[pid]
      && inOrder.invoice.status.PAID? && inOrder.invoice.balanceMinor == 0
      && reversed.invoice.status.SENT? && reversed.invoice.balanceMinor == b.invoice.balanceMinor
  {
  }

  /**
   * A settled row stays settled exactly under dropped events and repeated successes: a refund or a
   * cancellation reported by the gateway, like a late failure, takes it out of SETTLED while the
   * invoice stays paid.
   */
  lemma SettledRowKeptIff(b: Books, pid: nat, e: Event)
    requires pid < |b.payments| && b.payments[pid].status.SETTLED? && b.invoice.status.PAID?
    ensures var r := HandleEvent(b, pid, e);
      && (r.payments[pid].status.SETTLED? <==> Dropped(b.payments[pid], e) || e.kind.PAYMENT_SUCCEEDED?)
      && (!r.payments[pid].status.SETTLED? && !e.kind.PAYMENT_FAILED? ==> r.payments[pid].status.PROCESSING?)
      && r.invoice == b.invoice
  {
  }

  // --- The decline round trip -------------------------------------------------------------

  /** Events that settle nothing: unmodelled, stale, or reporting work in progress. */
  ghost predicate Quiet(b: Books, pid: nat, events: seq<Event>)
    requires pid < |b.payments|
  {
    events != [] ==>
      && Quiet(b, pid, events[..|events| - 1])
      && var last := events[|events| - 1];
         Dropped(Deliver(b, pid, events[..|events| - 1]).payments[pid], last)
         || (!last.kind.PAYMENT_SUCCEEDED? && !last.kind.PAYMENT_FAILED?)
  }

  lemma {:induction false} QuietKeepsInvoice(b: Books, pid: nat, events: seq<Event>)
    requires pid < |b.payments| && Quiet(b, pid, events)
    ensures Deliver(b, pid, events).invoice == b.invoice
  {
    if events != [] {
      QuietKeepsInvoice(b, pid, events[..|events| - 1]);
    }
  }

  /**
   * One attempt in flight, any number of quiet events, then a fresh failure: the invoice is back in
   * the status it had before the attempt, its balance untouched. The recorded previous status is
   * cleared if and only if the attempt did not itself start from PENDING_PAYMENT.
   */
  lemma DeclineRoundTrip(
    b: Books, via: Method, chargeMinor: int, nonce: string, answer: Answer, events: seq<Event>, failure: Event)
    requires CreateIntent(b, via, true, chargeMinor, nonce, answer).called
    requires CreateIntent(b, via, true, chargeMinor, nonce, answer).reply.Some?
    requires !answer.status.SUCCEEDED? && !answer.status.FAILED?
    requires var inFlight := CreateIntent(b, via, true, chargeMinor, nonce, answer).books;
      && Quiet(inFlight, |b.payments|, events)
      && failure.kind.PAYMENT_FAILED?
      && !Dropped(Deliver(inFlight, |b.payments|, events).payments[|b.payments|], failure)
    ensures var inFlight := CreateIntent(b, via, true, chargeMinor, nonce, answer).books;
      var after := HandleEvent(Deliver(inFlight, |b.payments|, events), |b.payments|, failure);
      && after.invoice.status == b.invoice.status
      && after.invoice.balanceMinor == b.invoice.balanceMinor
      && after.payments[|b.payments|].status.FAILED?
      && (after.invoice.previousStatus.None? <==> !b.invoice.status.PENDING_PAYMENT?)
  {
    var inFlight := CreateIntent(b, via, true, chargeMinor, nonce, answer).books;
    assert inFlight.invoice == b.invoice.(status := PENDING_PAYMENT, previousStatus := Some(b.invoice.status));
    QuietKeepsInvoice(inFlight, |b.payments|, events);
  }
}
