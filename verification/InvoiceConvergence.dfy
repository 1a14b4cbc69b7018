/** When every delivery order of one payment's events leaves the same invoice. */
module InvoiceConvergence {
  import opened Common
  import opened InvoiceTransitions
  import opened Ledger
  import opened LedgerRuns
  import opened LedgerStatuses
  import opened PaymentAttempts

  /** The same events, in any order and with any repetitions. */
  ghost predicate SameEvents(a: seq<Event>, b: seq<Event>) {
    forall e :: e in a <==> e in b
  }

  ghost predicate Converges(b: Books, pid: nat, events: seq<Event>)
    requires pid < |b.payments|
  {
    forall d | SameEvents(d, events) :: Deliver(b, pid, d).invoice == Deliver(b, pid, events).invoice
  }

  predicate IsSuccess(e: Event) {
    e.kind.PAYMENT_SUCCEEDED?
  }

  predicate IsFailure(e: Event) {
    e.kind.PAYMENT_FAILED?
  }

  /** Some event that the payment would not drop as it stands. */
  ghost predicate SomeFresh(p: Payment, events: seq<Event>) {
    exists e :: e in events && !Dropped(p, e)
  }

  ghost predicate FreshSuccess(p: Payment, events: seq<Event>) {
    exists e :: e in events && !Dropped(p, e) && IsSuccess(e)
  }

  ghost predicate FreshFailure(p: Payment, events: seq<Event>) {
    exists e :: e in events && !Dropped(p, e) && IsFailure(e)
  }

  /** Where a failure takes the invoice back to, if anywhere. */
  function ReturnStatus(i: Invoice): Option<InvoiceStatus> {
    if i.status.PENDING_PAYMENT? && i.previousStatus.Some? && !i.previousStatus.value.PENDING_PAYMENT? then i.previousStatus else None
  }

  /**
   * The condition, on the latest fresh event and on what is mixed with it. An attempt that can be
   * sent back: the latest settles alone, unless the two outcomes mix or nothing final is latest; a
   * return to PARTIALLY_PAID still takes a success. An attempt that cannot: only a success moves it,
   * so it must be absent or latest. Any other status is never moved.
   */
  ghost predicate OrderDoesNotMatter(i: Invoice, p: Payment, events: seq<Event>, latest: Event) {
    match ReturnStatus(i)
    case Some(back) =>
      if IsSuccess(latest) then back.PARTIALLY_PAID? || !FreshFailure(p, events)
      else if IsFailure(latest) then !FreshSuccess(p, events)
      else !FreshSuccess(p, events) && !FreshFailure(p, events)
    case None =>
      (i.status.PENDING_PAYMENT? || i.status.PARTIALLY_PAID?) ==> IsSuccess(latest) || !FreshSuccess(p, events)
  }

  // --- What one event does to the invoice --------------------------------------------------

  /** The invoice after one applied event. */
  function Moved(i: Invoice, e: Event): Invoice {
    SettledInvoice(i, BeforeAttempt(i), ResultOf(e.kind))
  }

  function Settled(i: Invoice): Invoice {
    i.(status := PAID, balanceMinor := 0, previousStatus := None)
  }

  lemma MovedIs(i: Invoice, e: Event)
    ensures Moved(i, e) ==
      if IsSuccess(e) && (i.status.PENDING_PAYMENT? || i.status.PARTIALLY_PAID?) then Settled(i)
      else if IsFailure(e) && ReturnStatus(i).Some? then i.(status := ReturnStatus(i).value, previousStatus := None)
      else i
  {
  }

  // --- Deliveries -----------------------------------------------------------------------------

  lemma {:induction false} DeliverConcat(b: Books, pid: nat, first: seq<Event>, second: seq<Event>)
    requires pid < |b.payments|
    ensures Deliver(b, pid, first + second) == Deliver(Deliver(b, pid, first), pid, second)
  {
    if second == [] {
      assert first + second == first;
    } else {
      var prefix := second[..|second| - 1];
      DeliverConcat(b, pid, first, prefix);
      assert (first + second)[..|first + second| - 1] == first + prefix;
    }
  }

  lemma {:induction false} AllDropped(b: Books, pid: nat, events: seq<Event>)
    requires pid < |b.payments| && forall e | e in events :: Dropped(b.payments[pid], e)
    ensures Deliver(b, pid, events) == b
  {
    if events != [] {
      AllDropped(b, pid, events[..|events| - 1]);
    }
  }

  /** After the latest fresh event, everything else is stale. */
  lemma LatestThenRest(b: Books, pid: nat, events: seq<Event>, latest: Event)
    requires pid < |b.payments| && latest in events && IsLatestFresh(b.payments[pid], events, latest)
    ensures Deliver(b, pid, [latest] + events).invoice == Moved(b.invoice, latest)
  {
    DeliverConcat(b, pid, [latest], events);
    assert [latest][..0] == [];
    var c := Deliver(b, pid, [latest]);
    AllDropped(c, pid, events);
  }

  /** One earlier fresh event first, then the latest, then the rest. */
  lemma EarlierThenLatest(b: Books, pid: nat, events: seq<Event>, e: Event, latest: Event)
    requires pid < |b.payments| && latest in events && e in events && IsLatestFresh(b.payments[pid], events, latest)
    requires !Dropped(b.payments[pid], e) && e.occurredAt < latest.occurredAt
    ensures Deliver(b, pid, [e] + ([latest] + events)).invoice == Moved(Moved(b.invoice, e), latest)
  {
    DeliverConcat(b, pid, [e], [latest] + events);
    assert [e][..0] == [];
    var c := Deliver(b, pid, [e]);
    assert IsLatestFresh(c.payments[pid], events, latest);
    LatestThenRest(c, pid, events, latest);
  }

  // --- Where it does not converge ----------------------------------------------------------------

  /** A fresh event whose application before the latest makes a difference. */
  lemma OffendingEvent(i: Invoice, p: Payment, events: seq<Event>, latest: Event) returns (e: Event)
    requires IsLatestFresh(p, events, latest) && latest in events && DistinctTimes(events)
    requires i.previousStatus.Some? ==> Payable(i.previousStatus.value)
    requires !OrderDoesNotMatter(i, p, events, latest)
    ensures e in events && !Dropped(p, e) && e.occurredAt < latest.occurredAt
    ensures Moved(i, latest) != Moved(Moved(i, e), latest)
  {
    if IsSuccess(latest) || (!IsFailure(latest) && !FreshSuccess(p, events)) {
      e :| e in events && !Dropped(p, e) && IsFailure(e);
    } else {
      e :| e in events && !Dropped(p, e) && IsSuccess(e);
    }
    MovedIs(i, latest);
    MovedIs(i, e);
    MovedIs(Moved(i, e), latest);
  }

  lemma Diverges(b: Books, pid: nat, events: seq<Event>, latest: Event)
    requires pid < |b.payments| && latest in events && IsLatestFresh(b.payments[pid], events, latest) && DistinctTimes(events)
    requires b.invoice.previousStatus.Some? ==> Payable(b.invoice.previousStatus.value)
    requires !OrderDoesNotMatter(b.invoice, b.payments[pid], events, latest)
    ensures !Converges(b, pid, events)
  {
    var e := OffendingEvent(b.invoice, b.payments[pid], events, latest);
    var one, two := [latest] + events, [e] + ([latest] + events);
    LatestThenRest(b, pid, events, latest);
    EarlierThenLatest(b, pid, events, e, latest);
    assert SameEvents(one, events) && SameEvents(two, events);
  }

  // --- Where it does --------------------------------------------------------------------------------

  /** What the invoice can be before the latest event has arrived, and what it is from then on. */
  ghost predicate OnTheWay(i: Invoice, j: Invoice, latest: Event, arrived: bool) {
    if arrived then j == Moved(i, latest)
    else
      || j == i
      || (IsSuccess(latest) && j == Settled(i) && (i.status.PENDING_PAYMENT? || i.status.PARTIALLY_PAID?))
      || (ReturnStatus(i).Some? && j == i.(status := ReturnStatus(i).value, previousStatus := None)
          && (IsFailure(latest) || (IsSuccess(latest) && ReturnStatus(i) == Some(PARTIALLY_PAID))))
  }

  ghost predicate Within(d: seq<Event>, events: seq<Event>) {
    forall e | e in d :: e in events
  }

  /** The payment has applied nothing newer than the latest, and the latest exactly if it has arrived. */
  ghost predicate UpTo(p: Payment, q: Payment, latest: Event, arrived: bool) {
    && (arrived ==> q.lastEventAt == Some(latest.occurredAt))
    && (!arrived ==> !Dropped(q, latest))
    && (forall e: Event :: Dropped(p, e) ==> Dropped(q, e))
  }

  lemma OnTheWayStep(i: Invoice, j: Invoice, p: Payment, events: seq<Event>, latest: Event, e: Event)
    requires IsLatestFresh(p, events, latest) && e in events && !Dropped(p, e)
    requires OrderDoesNotMatter(i, p, events, latest) && OnTheWay(i, j, latest, false)
    ensures OnTheWay(i, Moved(j, e), latest, e == latest)
  {
    MovedIs(i, latest);
    MovedIs(j, e);
    assert IsSuccess(e) ==> FreshSuccess(p, events);
    assert IsFailure(e) ==> FreshFailure(p, events);
  }

  lemma {:induction false} DeliveryOnTheWay(b: Books, pid: nat, events: seq<Event>, latest: Event, d: seq<Event>)
    requires pid < |b.payments| && latest in events && IsLatestFresh(b.payments[pid], events, latest) && DistinctTimes(events)
    requires OrderDoesNotMatter(b.invoice, b.payments[pid], events, latest) && Within(d, events)
    ensures var r := Deliver(b, pid, d);
      && OnTheWay(b.invoice, r.invoice, latest, latest in d)
      && UpTo(b.payments[pid], r.payments[pid], latest, latest in d)
  {
    if d != [] {
      var prefix, e := d[..|d| - 1], d[|d| - 1];
      assert d == prefix + [e];
      DeliveryOnTheWay(b, pid, events, latest, prefix);
      var c := Deliver(b, pid, prefix);
      assert Deliver(b, pid, d) == HandleEvent(c, pid, e);
      if !Dropped(c.payments[pid], e) {
        assert !Dropped(b.payments[pid], e);
        assert latest !in prefix;
        OnTheWayStep(b.invoice, c.invoice, b.payments[pid], events, latest, e);
      }
    }
  }

  lemma ConvergesWhenOrderDoesNotMatter(b: Books, pid: nat, events: seq<Event>, latest: Event)
    requires pid < |b.payments| && latest in events && IsLatestFresh(b.payments[pid], events, latest) && DistinctTimes(events)
    requires OrderDoesNotMatter(b.invoice, b.payments[pid], events, latest)
    ensures Converges(b, pid, events)
  {
    DeliveryOnTheWay(b, pid, events, latest, events);
    forall d | SameEvents(d, events) ensures Deliver(b, pid, d).invoice == Deliver(b, pid, events).invoice {
      DeliveryOnTheWay(b, pid, events, latest, d);
    }
  }

  // --- The exact condition ------------------------------------------------------------------------

  lemma {:induction false} LatestExists(p: Payment, events: seq<Event>) returns (latest: Event)
    requires SomeFresh(p, events)
    ensures latest in events && IsLatestFresh(p, events, latest)
  {
    var prefix, last := events[..|events| - 1], events[|events| - 1];
    assert events == prefix + [last];
    if SomeFresh(p, prefix) {
      latest := LatestExists(p, prefix);
      if !Dropped(p, last) && last.occurredAt > latest.occurredAt { latest := last; }
    } else {
      latest := last;
    }
  }

  /**
   * For any events of one payment with distinct times, and the latest of those it would apply: all
   * orders and repetitions leave the same invoice exactly under the condition. The recorded previous
   * status is one an attempt can start from, as it is in every reachable state.
   */
  lemma InvoiceConvergesIff(b: Books, pid: nat, events: seq<Event>)
    requires pid < |b.payments| && DistinctTimes(events)
    requires b.invoice.previousStatus.Some? ==> Payable(b.invoice.previousStatus.value)
    ensures Converges(b, pid, events)
       <==> forall latest | latest in events && IsLatestFresh(b.payments[pid], events, latest) ::
              OrderDoesNotMatter(b.invoice, b.payments[pid], events, latest)
  {
    var p := b.payments[pid];
    if SomeFresh(p, events) {
      var latest := LatestExists(p, events);
      if OrderDoesNotMatter(b.invoice, p, events, latest) {
        ConvergesWhenOrderDoesNotMatter(b, pid, events, latest);
      } else {
        Diverges(b, pid, events, latest);
      }
    } else {
      AllDropped(b, pid, events);
      forall d | SameEvents(d, events) ensures Deliver(b, pid, d).invoice == Deliver(b, pid, events).invoice {
        AllDropped(b, pid, d);
      }
    }
  }

  /** In every state a new invoice can reach. */
  lemma ReachableInvoiceConvergesIff(s: State, steps: seq<Step>, pid: nat, events: seq<Event>)
    requires Initial(s) && pid < |Run(s, steps).books.payments| && DistinctTimes(events)
    ensures var b := Run(s, steps).books;
      Converges(b, pid, events)
      <==> forall latest | latest in events && IsLatestFresh(b.payments[pid], events, latest) ::
             OrderDoesNotMatter(b.invoice, b.payments[pid], events, latest)
  {
    RunRegular(s, steps);
    InvoiceConvergesIff(Run(s, steps).books, pid, events);
  }
}
