/** The invoice pull as it runs: one listed invoice, one phase over every page, one brand. */
module InvoicePull {
  import opened Common
  import opened InvoiceTransitions
  import opened Money
  import opened ZohoRecords
  import D = InvoiceDetail

  type InvoiceId = nat
  type ContactId = nat

  datatype ListItem = ListItem(
    invoiceId: InvoiceId, customerId: ContactId, number: string, status: string, currencyCode: string,
    totalMinor: int, balanceMinor: int, lastModified: Option<Time>)

  datatype Invoice = Invoice(
    customerId: ContactId, number: string, status: InvoiceStatus, currency: Currency,
    totalMinor: int, balanceMinor: int, subtotalMinor: int, taxMinor: int, taxRateBpApplied: int, cardFeeMinor: int,
    notes: Option<string>, version: Option<Time>, lines: seq<D.LineItem>)

  function SupportedCurrency(code: string): Option<Currency> {
    match code
    case "USD" => Some(USD)
    case "CAD" => Some(CAD)
    case "EUR" => Some(EUR)
    case "GBP" => Some(GBP)
    case "PKR" => Some(PKR)
    case _ => None
  }

  function LocalStatus(status: string): InvoiceStatus {
    match status
    case "draft" => DRAFT
    case "sent" => SENT
    case "viewed" => VIEWED
    case "unpaid" => PENDING_PAYMENT
    case "overdue" => PENDING_PAYMENT
    case "partially_paid" => PARTIALLY_PAID
    case "paid" => PAID
    case "void" => CANCELLED
    case _ => SENT
  }

  function VersionOf(invoices: map<InvoiceId, Invoice>, id: InvoiceId): Option<Time> {
    if id in invoices then invoices[id].version else None
  }

  /** Another invoice of the brand already has the number: one numbered here, or one pulled earlier. */
  predicate NumberTaken(invoices: map<InvoiceId, Invoice>, reserved: set<string>, id: InvoiceId, number: string) {
    number in reserved || exists other :: other in invoices && other != id && invoices[other].number == number
  }

  /** What the pull writes of a listed invoice: the header over whatever else is stored, or a new row with defaults. */
  function Header(item: ListItem, currency: Currency, existing: Option<Invoice>): Invoice {
    match existing
    case Some(row) => row.(
      customerId := item.customerId, number := item.number, status := LocalStatus(item.status), currency := currency,
      totalMinor := item.totalMinor, balanceMinor := item.balanceMinor, version := item.lastModified)
    case None => Invoice(
      item.customerId, item.number, LocalStatus(item.status), currency,
      item.totalMinor, item.balanceMinor, item.totalMinor, 0, 0, 0, None, item.lastModified, [])
  }

  /** The listed version, or a newer one, is stored. */
  predicate Held(invoices: map<InvoiceId, Invoice>, item: ListItem) {
    && item.invoiceId in invoices && item.lastModified.Some?
    && invoices[item.invoiceId].version.Some?
    && invoices[item.invoiceId].version.value >= item.lastModified.value
  }

  /** No invoice is lost, and no stored version goes back except where the listing gives no time to store. */
  ghost predicate Forward(before: map<InvoiceId, Invoice>, after: map<InvoiceId, Invoice>, untimed: set<InvoiceId>) {
    forall id | id in before ::
      && id in after
      && (id !in untimed && before[id].version.Some? ==>
            after[id].version.Some? && after[id].version.value >= before[id].version.value)
  }

  ghost function Untimed(items: seq<ListItem>): set<InvoiceId> {
    set i | i in items && i.lastModified.None? :: i.invoiceId
  }

  ghost function UntimedIn(pages: seq<Result<seq<ListItem>, ErrorClass>>): set<InvoiceId> {
    set k, i | 0 <= k < |pages| && pages[k].Success? && i in pages[k].value && i.lastModified.None? :: i.invoiceId
  }

  ghost predicate UniqueNumbers(invoices: map<InvoiceId, Invoice>, reserved: set<string>) {
    && (forall i, j | i in invoices && j in invoices && invoices[i].number == invoices[j].number :: i == j)
    && (forall i | i in invoices :: invoices[i].number !in reserved)
  }

  /** Zoho's answers during one pull: whether a contact can be fetched, and each invoice's detail. */
  datatype Answers = Answers(contact: ContactId -> Option<ErrorClass>, detail: InvoiceId -> Result<D.Detail, ErrorClass>)

  // --- One listed invoice -------------------------------------------------------------------

  datatype Store = Store(contacts: set<ContactId>, invoices: map<InvoiceId, Invoice>)

  /** The detail written over the row: pushed tax and fee lines are read back as tax and fee, never as products. */
  function Refreshed(row: Invoice, detail: D.Detail): Invoice {
    var subtotal, tax := D.RecoveredSubtotal(detail), D.RecoveredTax(detail);
    row.(subtotalMinor := subtotal, taxMinor := tax, taxRateBpApplied := D.RecoveredRate(subtotal, tax),
         notes := detail.notes, lines := D.ToLocalLineItems(D.RealLines(detail.lines)))
  }

  function LinesAfter(row: Invoice, id: InvoiceId, prefetched: Option<D.Detail>, answers: Answers): Result<Invoice, ErrorClass> {
    if row.lines == [] then Success(row)
    else if prefetched.Some? then Success(Refreshed(row, prefetched.value))
    else
      match answers.detail(id)
      case Success(detail) => Success(Refreshed(row, detail))
      case Failure(error) => Failure(error)
  }

  /** The answer, and what is stored afterwards: a failure after the refresh keeps the fresh lines under the old version. */
  function PullOne(s: Store, reserved: set<string>, item: ListItem, prefetched: Option<D.Detail>, answers: Answers)
    : (Result<bool, ErrorClass>, Store)
  {
    var id := item.invoiceId;
    if IsOwnPushEcho(item.lastModified, VersionOf(s.invoices, id)) then (Success(false), s)
    else if item.customerId !in s.contacts && answers.contact(item.customerId).Some? then
      (Failure(answers.contact(item.customerId).value), s)
    else
      var t := s.(contacts := s.contacts + {item.customerId});
      match SupportedCurrency(item.currencyCode)
      case None => (Failure(VALIDATION), t)
      case Some(currency) =>
        if id !in s.invoices then
          if NumberTaken(s.invoices, reserved, id, item.number) then (Failure(VALIDATION), t)
          else (Success(true), t.(invoices := s.invoices[id := Header(item, currency, None)]))
        else
          match LinesAfter(s.invoices[id], id, prefetched, answers)
          case Failure(error) => (Failure(error), t)
          case Success(row) =>
            if NumberTaken(s.invoices, reserved, id, item.number) then (Failure(VALIDATION), t.(invoices := s.invoices[id := row]))
            else (Success(true), t.(invoices := s.invoices[id := Header(item, currency, Some(row))]))
  }

  /** Skipped exactly when the listed version is not newer than the stored one, and then nothing changes. */
  lemma SkippedIffEcho(s: Store, reserved: set<string>, item: ListItem, prefetched: Option<D.Detail>, answers: Answers)
    ensures var (r, t) := PullOne(s, reserved, item, prefetched, answers);
      && (r == Success(false) <==> IsOwnPushEcho(item.lastModified, VersionOf(s.invoices, item.invoiceId)))
      && (r == Success(false) ==> t == s)
  {
  }

  /** A failure stamps no version, touches no header and no other invoice: the next pull meets the same item again. */
  lemma FailureIsRetried(s: Store, reserved: set<string>, item: ListItem, prefetched: Option<D.Detail>, answers: Answers)
    ensures var (r, t) := PullOne(s, reserved, item, prefetched, answers);
      r.Failure? ==>
        && t.invoices.Keys == s.invoices.Keys
        && (forall id | id in s.invoices && id != item.invoiceId :: t.invoices[id] == s.invoices[id])
        && (item.invoiceId in s.invoices ==> var was, now := s.invoices[item.invoiceId], t.invoices[item.invoiceId];
             now == was.(subtotalMinor := now.subtotalMinor, taxMinor := now.taxMinor, taxRateBpApplied := now.taxRateBpApplied,
                         notes := now.notes, lines := now.lines))
        && !IsOwnPushEcho(item.lastModified, VersionOf(t.invoices, item.invoiceId))
  {
  }

  /** Every stored version moves forward, but for an item without a time, which is always applied and leaves none. */
  lemma PullOneForward(s: Store, reserved: set<string>, item: ListItem, prefetched: Option<D.Detail>, answers: Answers)
    ensures var (r, t) := PullOne(s, reserved, item, prefetched, answers);
      && Forward(s.invoices, t.invoices, Untimed([item])) && s.contacts <= t.contacts
      && (r.Success? && item.lastModified.Some? ==> Held(t.invoices, item))
      && (r.Success? && item.lastModified.None? ==> r.value && item.invoiceId in t.invoices && t.invoices[item.invoiceId].version.None?)
  {
  }

  lemma PullOneKeepsNumbers(s: Store, reserved: set<string>, item: ListItem, prefetched: Option<D.Detail>, answers: Answers)
    requires UniqueNumbers(s.invoices, reserved)
    ensures UniqueNumbers(PullOne(s, reserved, item, prefetched, answers).1.invoices, reserved)
  {
    var t := PullOne(s, reserved, item, prefetched, answers).1;
    var id := item.invoiceId;
    if !NumberTaken(s.invoices, reserved, id, item.number) {
      assert forall other | other in s.invoices && other != id :: s.invoices[other].number != item.number;
    }
  }

  /** The header carries what Zoho lists, in this platform's terms; what the listing does not say stays, or is what the detail says. */
  lemma AppliedHeader(s: Store, reserved: set<string>, item: ListItem, prefetched: Option<D.Detail>, answers: Answers)
    ensures var (r, t) := PullOne(s, reserved, item, prefetched, answers);
      r == Success(true) ==>
        && item.invoiceId in t.invoices && t.contacts == s.contacts + {item.customerId}
        && t.invoices == s.invoices[item.invoiceId := t.invoices[item.invoiceId]]
        && var now := t.invoices[item.invoiceId];
           && (now.customerId, now.number) == (item.customerId, item.number)
           && (now.totalMinor, now.balanceMinor, now.version) == (item.totalMinor, item.balanceMinor, item.lastModified)
           && Translates(item.status, now.status) && Denotes(item.currencyCode, now.currency)
           && (item.invoiceId !in s.invoices ==>
                 && (now.subtotalMinor, now.taxMinor, now.taxRateBpApplied, now.cardFeeMinor) == (item.totalMinor, 0, 0, 0)
                 && now.notes.None? && now.lines == [])
           && (item.invoiceId in s.invoices ==> var was := s.invoices[item.invoiceId];
                && now.cardFeeMinor == was.cardFeeMinor
                && (was.lines == [] ==> SameDetail(now, was))
                && (was.lines != [] && prefetched.Some? ==> DetailOf(now, prefetched.value))
                && (was.lines != [] && prefetched.None? ==>
                      answers.detail(item.invoiceId).Success? && DetailOf(now, answers.detail(item.invoiceId).value)))
  {
  }

  /** The local status a listed status word stands for; an unknown word reads as sent. */
  ghost predicate Translates(word: string, status: InvoiceStatus) {
    && (status.DRAFT? <==> word == "draft")
    && (status.VIEWED? <==> word == "viewed")
    && (status.PENDING_PAYMENT? <==> word == "unpaid" || word == "overdue")
    && (status.PARTIALLY_PAID? <==> word == "partially_paid")
    && (status.PAID? <==> word == "paid")
    && (status.CANCELLED? <==> word == "void")
  }

  ghost predicate Denotes(code: string, currency: Currency) {
    || (code == "USD" && currency.USD?)
    || (code == "CAD" && currency.CAD?)
    || (code == "EUR" && currency.EUR?)
    || (code == "GBP" && currency.GBP?)
    || (code == "PKR" && currency.PKR?)
  }

  ghost predicate SameDetail(now: Invoice, was: Invoice) {
    && (now.subtotalMinor, now.taxMinor, now.taxRateBpApplied) == (was.subtotalMinor, was.taxMinor, was.taxRateBpApplied)
    && now.notes == was.notes && now.lines == was.lines
  }

  /** Subtotal, tax and lines are the detail's without the lines a push adds. */
  ghost predicate DetailOf(now: Invoice, detail: D.Detail) {
    && now.subtotalMinor == detail.subTotalMinor - D.SumOf(detail.lines, D.Tax) - D.SumOf(detail.lines, D.CardFee)
    && now.taxMinor == detail.taxTotalMinor + D.SumOf(detail.lines, D.Tax)
    && now.taxRateBpApplied == D.RecoveredRate(now.subtotalMinor, now.taxMinor)
    && now.notes == detail.notes && now.lines == D.ToLocalLineItems(D.RealLines(detail.lines))
  }

  /** Zoho lists nothing newer than what is stored. */
  ghost predicate NothingNewer(s: Store, item: ListItem) {
    && item.lastModified.Some? && item.invoiceId in s.invoices && s.invoices[item.invoiceId].version.Some?
    && item.lastModified.value <= s.invoices[item.invoiceId].version.value
  }

  ghost predicate NeedsDetail(s: Store, item: ListItem, prefetched: Option<D.Detail>) {
    item.invoiceId in s.invoices && s.invoices[item.invoiceId].lines != [] && prefetched.None?
  }

  /** When a pull applies, when it skips, and which error it ends in: its contact's, its own, or its detail's. */
  lemma OutcomeOfPull(s: Store, reserved: set<string>, item: ListItem, prefetched: Option<D.Detail>, answers: Answers)
    ensures var r := PullOne(s, reserved, item, prefetched, answers).0;
      var known := item.customerId in s.contacts || answers.contact(item.customerId).None?;
      var supported := item.currencyCode in ["USD", "CAD", "EUR", "GBP", "PKR"];
      var readable := NeedsDetail(s, item, prefetched) ==> answers.detail(item.invoiceId).Success?;
      var free := item.number !in reserved
        && forall other | other in s.invoices && other != item.invoiceId :: s.invoices[other].number != item.number;
      && (r == Success(false) <==> NothingNewer(s, item))
      && (r == Success(true) <==> !NothingNewer(s, item) && known && supported && readable && free)
      && (!NothingNewer(s, item) && !known ==> r == Failure(answers.contact(item.customerId).value))
      && (!NothingNewer(s, item) && known && !supported ==> r == Failure(VALIDATION))
      && (!NothingNewer(s, item) && known && supported && !readable ==> r == Failure(answers.detail(item.invoiceId).error))
      && (!NothingNewer(s, item) && known && supported && readable && !free ==> r == Failure(VALIDATION))
  {
    SupportedExactly(item.currencyCode);
  }

  lemma SupportedExactly(code: string)
    ensures SupportedCurrency(code).Some? <==> code in ["USD", "CAD", "EUR", "GBP", "PKR"]
  {
    var codes := ["USD", "CAD", "EUR", "GBP", "PKR"];
    assert codes[0] in codes && codes[1] in codes && codes[2] in codes && codes[3] in codes && codes[4] in codes;
  }

  // --- A phase, item by item ------------------------------------------------------------------

  /** What a phase has done so far: the store, the failures it passed over, the invoices it wrote, and what ended it. */
  datatype Progress = Progress(
    store: Store, failed: set<(InvoiceId, Option<Time>)>, touched: nat, stopped: Option<ErrorClass>)

  /** One more item, unless the phase has ended: a failure of that record alone goes on record, any other ends the phase. */
  function Passed(p: Progress, reserved: set<string>, item: ListItem, answers: Answers): Progress {
    if p.stopped.Some? then p
    else
      var (r, t) := PullOne(p.store, reserved, item, None, answers);
      match r
      case Success(applied) => p.(store := t, touched := if applied then p.touched + 1 else p.touched)
      case Failure(error) =>
        if error.AUTHENTICATION? || error.TRANSIENT? || error.Unknown? then p.(store := t, stopped := Some(error))
        else p.(store := t, failed := p.failed + {(item.invoiceId, item.lastModified)})
  }

  function Through(p: Progress, reserved: set<string>, items: seq<ListItem>, answers: Answers): Progress {
    if items == [] then p
    else Passed(Through(p, reserved, items[..|items| - 1], answers), reserved, items[|items| - 1], answers)
  }

  function ThroughPages(p: Progress, reserved: set<string>, pages: seq<Result<seq<ListItem>, ErrorClass>>, answers: Answers): Progress {
    if pages == [] then p
    else
      var q := ThroughPages(p, reserved, pages[..|pages| - 1], answers);
      if q.stopped.Some? then q
      else
        match pages[|pages| - 1]
        case Success(items) => Through(q, reserved, items, answers)
        case Failure(error) => q.(stopped := Some(error))
  }

  /** The phase comes through to item `n`, which then fails for a reason that is not its own. */
  ghost predicate FailsAtItem(
    p: Progress, reserved: set<string>, items: seq<ListItem>, answers: Answers, n: nat, error: ErrorClass)
  {
    && n < |items| && error in {AUTHENTICATION, TRANSIENT, Unknown}
    && var q := Through(p, reserved, items[..n], answers);
       && q.stopped.None?
       && PullOne(q.store, reserved, items[n], None, answers).0 == Failure(error)
  }

  /** The phase comes through to page `k`, which then cannot be listed or holds such an item. */
  ghost predicate FailsAtPage(
    p: Progress, reserved: set<string>, pages: seq<Result<seq<ListItem>, ErrorClass>>, answers: Answers, k: nat, error: ErrorClass)
  {
    && k < |pages|
    && var q := ThroughPages(p, reserved, pages[..k], answers);
       && q.stopped.None?
       && match pages[k]
          case Failure(listing) => listing == error
          case Success(items) => exists n: nat :: FailsAtItem(q, reserved, items, answers, n, error)
  }

  lemma {:induction false} StoppedAtItem(p: Progress, reserved: set<string>, items: seq<ListItem>, answers: Answers, error: ErrorClass)
    requires p.stopped.None?
    ensures Through(p, reserved, items, answers).stopped == Some(error)
       <==> exists n: nat :: FailsAtItem(p, reserved, items, answers, n, error)
  {
    if items != [] {
      var prefix, last := items[..|items| - 1], |items| - 1;
      StoppedAtItem(p, reserved, prefix, answers, error);
      forall n | 0 <= n < last
        ensures FailsAtItem(p, reserved, items, answers, n, error) <==> FailsAtItem(p, reserved, prefix, answers, n, error)
      {
        assert items[..n] == prefix[..n];
      }
      var q := Through(p, reserved, prefix, answers);
      assert q.stopped.Some? ==> Through(p, reserved, items, answers) == q;
      if q.stopped.None? && Through(p, reserved, items, answers).stopped == Some(error) {
        assert FailsAtItem(p, reserved, items, answers, last, error);
      }
      if n: nat :| FailsAtItem(p, reserved, items, answers, n, error) {
        assert n == last || n < last;
      }
    }
  }

  /** Once a phase has ended, what it had not reached changes nothing. */
  lemma {:induction false} PageEnds(p: Progress, reserved: set<string>, items: seq<ListItem>, answers: Answers, n: nat)
    requires n <= |items|
    ensures Through(p, reserved, items[..n], answers).stopped.Some? ==>
      Through(p, reserved, items, answers) == Through(p, reserved, items[..n], answers)
  {
    if n == |items| {
      assert items[..n] == items;
    } else {
      PageEnds(p, reserved, items[..|items| - 1], answers, n);
      assert items[..|items| - 1][..n] == items[..n];
    }
  }

  lemma {:induction false} PagesEnd(
    p: Progress, reserved: set<string>, pages: seq<Result<seq<ListItem>, ErrorClass>>, answers: Answers, n: nat)
    requires n <= |pages|
    ensures ThroughPages(p, reserved, pages[..n], answers).stopped.Some? ==>
      ThroughPages(p, reserved, pages, answers) == ThroughPages(p, reserved, pages[..n], answers)
  {
    if n == |pages| {
      assert pages[..n] == pages;
    } else {
      PagesEnd(p, reserved, pages[..|pages| - 1], answers, n);
      assert pages[..|pages| - 1][..n] == pages[..n];
    }
  }

  /** A phase is ended by the first page that cannot be listed or the first failure that is not one record's own, and by nothing else. */
  lemma {:induction false} StoppedIff(
    p: Progress, reserved: set<string>, pages: seq<Result<seq<ListItem>, ErrorClass>>, answers: Answers, error: ErrorClass)
    requires p.stopped.None?
    ensures ThroughPages(p, reserved, pages, answers).stopped == Some(error)
       <==> exists k: nat :: FailsAtPage(p, reserved, pages, answers, k, error)
  {
    if pages != [] {
      var prefix, last := pages[..|pages| - 1], |pages| - 1;
      StoppedIff(p, reserved, prefix, answers, error);
      forall k | 0 <= k < last
        ensures FailsAtPage(p, reserved, pages, answers, k, error) <==> FailsAtPage(p, reserved, prefix, answers, k, error)
      {
        assert pages[..k] == prefix[..k];
      }
      var q := ThroughPages(p, reserved, prefix, answers);
      if q.stopped.None? {
        if pages[last].Success? { StoppedAtItem(q, reserved, pages[last].value, answers, error); }
        assert ThroughPages(p, reserved, pages, answers).stopped == Some(error)
          <==> FailsAtPage(p, reserved, pages, answers, last, error);
      }
      if k: nat :| FailsAtPage(p, reserved, pages, answers, k, error) {
        assert k == last || k < last;
      }
    }
  }

  /** The listed version is stored, or a newer one, or its failure is on record; without a time the invoice is at least stored. */
  ghost predicate Dealt(
    invoices: map<InvoiceId, Invoice>, failed: set<(InvoiceId, Option<Time>)>, untimed: set<InvoiceId>, item: ListItem)
  {
    || (item.invoiceId, item.lastModified) in failed
    || (if item.invoiceId in untimed then item.invoiceId in invoices else Held(invoices, item))
  }

  ghost predicate PageDealt(
    page: Result<seq<ListItem>, ErrorClass>, invoices: map<InvoiceId, Invoice>, failed: set<(InvoiceId, Option<Time>)>,
    untimed: set<InvoiceId>)
  {
    page.Success? && forall i | i in page.value :: Dealt(invoices, failed, untimed, i)
  }

  /** What was dealt with stays so while versions move forward and failures are only added. */
  lemma StaysDealt(
    before: map<InvoiceId, Invoice>, after: map<InvoiceId, Invoice>,
    recorded: set<(InvoiceId, Option<Time>)>, failed: set<(InvoiceId, Option<Time>)>, untimed: set<InvoiceId>, item: ListItem)
    requires Forward(before, after, untimed) && recorded <= failed && Dealt(before, recorded, untimed, item)
    ensures Dealt(after, failed, untimed, item)
  {
  }

  /** An item pulled tolerantly is an item passed. */
  lemma PassedMeans(p: Progress, reserved: set<string>, item: ListItem, answers: Answers, r: Result<bool, ErrorClass>, after: Progress)
    requires p.stopped.None? && after.stopped.None?
    requires var (pulled, store) := PullOne(p.store, reserved, item, None, answers);
      && after.store == store
      && (pulled.Success? ==> r == pulled && after.failed == p.failed)
      && (pulled.Failure? && pulled.error in {VALIDATION, CONFLICT, PERMANENT} ==>
            r == Success(false) && after.failed == p.failed + {(item.invoiceId, item.lastModified)})
      && (pulled.Failure? && pulled.error in {AUTHENTICATION, TRANSIENT, Unknown} ==>
            r == pulled && after.failed == p.failed)
    ensures Passed(p, reserved, item, answers) == after.(
      touched := if r.Success? && r.value then p.touched + 1 else p.touched,
      stopped := if r.Failure? then Some(r.error) else None)
  {
  }

  /** Passing one item keeps numbers unique and versions moving forward, and deals with it unless it ends the phase. */
  lemma PassedKeeps(p: Progress, reserved: set<string>, item: ListItem, answers: Answers, untimed: set<InvoiceId>)
    requires UniqueNumbers(p.store.invoices, reserved) && Untimed([item]) <= untimed
    ensures var q := Passed(p, reserved, item, answers);
      && UniqueNumbers(q.store.invoices, reserved)
      && Forward(p.store.invoices, q.store.invoices, untimed) && p.failed <= q.failed
      && (p.stopped.None? && q.stopped.None? ==> Dealt(q.store.invoices, q.failed, untimed, item))
  {
    PullOneForward(p.store, reserved, item, None, answers);
    PullOneKeepsNumbers(p.store, reserved, item, None, answers);
    assert item.lastModified.None? ==> item.invoiceId in Untimed([item]);
  }

  lemma {:induction false} ThroughKeeps(p: Progress, reserved: set<string>, items: seq<ListItem>, answers: Answers, untimed: set<InvoiceId>)
    requires UniqueNumbers(p.store.invoices, reserved) && Untimed(items) <= untimed
    ensures var q := Through(p, reserved, items, answers);
      && UniqueNumbers(q.store.invoices, reserved)
      && Forward(p.store.invoices, q.store.invoices, untimed) && p.failed <= q.failed
      && (p.stopped.None? && q.stopped.None? ==> forall i | i in items :: Dealt(q.store.invoices, q.failed, untimed, i))
  {
    if items != [] {
      var prefix, last := items[..|items| - 1], items[|items| - 1];
      assert items == prefix + [last];
      assert Untimed(prefix) <= Untimed(items) && Untimed([last]) <= Untimed(items);
      ThroughKeeps(p, reserved, prefix, answers, untimed);
      var before, q := Through(p, reserved, prefix, answers), Through(p, reserved, items, answers);
      PassedKeeps(before, reserved, last, answers, untimed);
      if p.stopped.None? && q.stopped.None? {
        forall i | i in prefix ensures Dealt(q.store.invoices, q.failed, untimed, i) {
          StaysDealt(before.store.invoices, q.store.invoices, before.failed, q.failed, untimed, i);
        }
      }
    }
  }

  lemma {:induction false} ThroughPagesKeeps(
    p: Progress, reserved: set<string>, pages: seq<Result<seq<ListItem>, ErrorClass>>, answers: Answers, untimed: set<InvoiceId>)
    requires UniqueNumbers(p.store.invoices, reserved) && UntimedIn(pages) <= untimed && p.stopped.None?
    ensures var q := ThroughPages(p, reserved, pages, answers);
      && UniqueNumbers(q.store.invoices, reserved)
      && Forward(p.store.invoices, q.store.invoices, untimed) && p.failed <= q.failed
      && (q.stopped.None? ==> forall k | 0 <= k < |pages| :: PageDealt(pages[k], q.store.invoices, q.failed, untimed))
  {
    if pages != [] {
      var prefix, last := pages[..|pages| - 1], pages[|pages| - 1];
      assert pages == prefix + [last];
      assert UntimedIn(prefix) <= UntimedIn(pages) && (last.Success? ==> Untimed(last.value) <= UntimedIn(pages));
      ThroughPagesKeeps(p, reserved, prefix, answers, untimed);
      var before, q := ThroughPages(p, reserved, prefix, answers), ThroughPages(p, reserved, pages, answers);
      if before.stopped.None? && last.Success? {
        ThroughKeeps(before, reserved, last.value, answers, untimed);
        forall k, i | 0 <= k < |prefix| && q.stopped.None? && i in prefix[k].value
          ensures Dealt(q.store.invoices, q.failed, untimed, i)
        {
          assert PageDealt(prefix[k], before.store.invoices, before.failed, untimed);
          StaysDealt(before.store.invoices, q.store.invoices, before.failed, q.failed, untimed, i);
        }
        assert q.stopped.None? ==> forall k | 0 <= k < |prefix| :: PageDealt(prefix[k], q.store.invoices, q.failed, untimed);
      }
    }
  }

  class Brand {
    var contacts: set<ContactId>
    var invoices: map<InvoiceId, Invoice>
    var reserved: set<string>                   // numbers of invoices created here and not known to Zoho
    var failed: set<(InvoiceId, Option<Time>)>  // failures on record that a pull went past, by listed version
    var cursor: Option<Time>

    ghost predicate Valid()
      reads this
    {
      UniqueNumbers(invoices, reserved)
    }

    ghost function Begun(): Progress
      reads this
    {
      Progress(Store(contacts, invoices), failed, 0, None)
    }

    ghost predicate Ended(p: Progress, r: Result<nat, ErrorClass>)
      reads this
    {
      && Store(contacts, invoices) == p.store && failed == p.failed
      && r == match p.stopped case Some(error) => Failure(error) case None => Success(p.touched)
    }

    constructor (reserved: set<string>)
      ensures Valid() && contacts == {} && invoices == map[] && this.reserved == reserved
      ensures failed == {} && cursor.None?
    {
      contacts, invoices, failed, cursor := {}, map[], {}, None;
      this.reserved := reserved;
    }

    /** A contact not seen yet is fetched and stored; its failure is the invoice's failure. */
    method EnsureCustomer(customerId: ContactId, answers: Answers) returns (error: Option<ErrorClass>)
      modifies this`contacts
      ensures error == (if customerId in old(contacts) then None else answers.contact(customerId))
      ensures contacts == if error.None? then old(contacts) + {customerId} else old(contacts)
    {
      if customerId in contacts { return None; }
      error := answers.contact(customerId);
      if error.None? { contacts := contacts + {customerId}; }
    }

    /** Line items of an invoice that has some, refreshed before the header is stamped. */
    method RefreshLines(id: InvoiceId, prefetched: Option<D.Detail>, answers: Answers) returns (error: Option<ErrorClass>)
      requires id in invoices
      modifies this`invoices
      ensures match LinesAfter(old(invoices)[id], id, prefetched, answers)
        case Failure(e) => error == Some(e) && invoices == old(invoices)
        case Success(row) => error.None? && invoices == old(invoices)[id := row]
    {
      if invoices[id].lines == [] {
        assert invoices[id := invoices[id]] == invoices;
        return None;
      }
      var detail;
      match prefetched {
        case Some(d) => detail := d;
        case None =>
          match answers.detail(id) {
            case Failure(e) => return Some(e);
            case Success(d) => detail := d;
          }
      }
      invoices := invoices[id := Refreshed(invoices[id], detail)];
      return None;
    }

    method PullOneInvoice(item: ListItem, prefetched: Option<D.Detail>, answers: Answers) returns (r: Result<bool, ErrorClass>)
      modifies this`contacts, this`invoices
      ensures (r, Store(contacts, invoices)) == PullOne(old(Store(contacts, invoices)), reserved, item, prefetched, answers)
    {
      var id := item.invoiceId;
      if IsOwnPushEcho(item.lastModified, VersionOf(invoices, id)) { return Success(false); }
      var error := EnsureCustomer(item.customerId, answers);
      if error.Some? { return Failure(error.value); }
      assert contacts == old(contacts) + {item.customerId};
      var currency := SupportedCurrency(item.currencyCode);
      if currency.None? { return Failure(VALIDATION); }
      var taken := NumberTaken(invoices, reserved, id, item.number);
      if id in invoices {
        error := RefreshLines(id, prefetched, answers);
        if error.Some? { return Failure(error.value); }
      }
      // the unique index on the number refuses the upsert
      if taken { return Failure(VALIDATION); }
      invoices := invoices[id := Header(item, currency.value, if id in invoices then Some(invoices[id]) else None)];
      assert invoices == old(invoices)[id := invoices[id]];
      return Success(true);
    }

    /** The failure of one record is on record and swallowed; a systemic or unknown one ends the phase. */
    method PullTolerantly(item: ListItem, answers: Answers) returns (r: Result<bool, ErrorClass>)
      requires Valid()
      modifies this`contacts, this`invoices, this`failed
      ensures Valid() && Forward(old(invoices), invoices, Untimed([item])) && old(failed) <= failed
      ensures r.Success? ==> Dealt(invoices, failed, Untimed([item]), item)
      ensures var (pulled, after) := PullOne(old(Store(contacts, invoices)), reserved, item, None, answers);
        && Store(contacts, invoices) == after
        && (pulled.Success? ==> r == pulled && failed == old(failed))
        && (pulled.Failure? && pulled.error in {VALIDATION, CONFLICT, PERMANENT} ==>
              r == Success(false) && failed == old(failed) + {(item.invoiceId, item.lastModified)})
        && (pulled.Failure? && pulled.error in {AUTHENTICATION, TRANSIENT, Unknown} ==>
              r == pulled && failed == old(failed))
    {
      PullOneForward(Store(contacts, invoices), reserved, item, None, answers);
      PullOneKeepsNumbers(Store(contacts, invoices), reserved, item, None, answers);
      r := PullOneInvoice(item, None, answers);
      if r.Failure? && Tolerated(r.error) {
        failed := failed + {(item.invoiceId, item.lastModified)};
        return Success(false);
      }
    }

    /** Every page in turn; a page that cannot be listed ends the phase. */
    method PullInvoices(pages: seq<Result<seq<ListItem>, ErrorClass>>, answers: Answers) returns (r: Result<nat, ErrorClass>)
      requires Valid()
      modifies this`contacts, this`invoices, this`failed
      ensures Valid() && Forward(old(invoices), invoices, UntimedIn(pages)) && old(failed) <= failed
      ensures Ended(ThroughPages(old(Begun()), reserved, pages, answers), r)
      // success means every page was listed and every item on it dealt with
      ensures r.Success? ==> forall k | 0 <= k < |pages| :: PageDealt(pages[k], invoices, failed, UntimedIn(pages))
    {
      ThroughPagesKeeps(Begun(), reserved, pages, answers, UntimedIn(pages));
      var page, touched := 0, 0;
      while page < |pages|
        invariant page <= |pages| && Valid()
        invariant ThroughPages(old(Begun()), reserved, pages[..page], answers) == Begun().(touched := touched)
      {
        assert pages[..page + 1][..page] == pages[..page];
        PagesEnd(old(Begun()), reserved, pages, answers, page + 1);
        if pages[page].Failure? { return Failure(pages[page].error); }
        var applied := PullPage(pages[page].value, answers, touched);
        if applied.Failure? { return applied; }
        touched := applied.value;
        page := page + 1;
      }
      assert pages[..page] == pages;
      return Success(touched);
    }

    /** One page in order, counting on from what the pages before it wrote. */
    method PullPage(items: seq<ListItem>, answers: Answers, soFar: nat) returns (r: Result<nat, ErrorClass>)
      requires Valid()
      modifies this`contacts, this`invoices, this`failed
      ensures Valid() && Ended(Through(old(Begun()).(touched := soFar), reserved, items, answers), r)
    {
      ghost var begun := Begun().(touched := soFar);
      var n, touched := 0, soFar;
      while n < |items|
        invariant n <= |items| && Valid()
        invariant Through(begun, reserved, items[..n], answers) == Begun().(touched := touched)
      {
        assert items[..n + 1][..n] == items[..n];
        PageEnds(begun, reserved, items, answers, n + 1);
        ghost var before := Begun().(touched := touched);
        var applied := PullTolerantly(items[n], answers);
        PassedMeans(before, reserved, items[n], answers, applied, Begun());
        if applied.Failure? { return Failure(applied.error); }
        if applied.value { touched := touched + 1; }
        n := n + 1;
      }
      assert items[..n] == items;
      return Success(touched);
    }

    /** The brand's pull: the cursor moves to the pull's own start, and only when both phases came through. */
    method PullBrand(startedAt: Time, customersPhase: Option<ErrorClass>, pages: seq<Result<seq<ListItem>, ErrorClass>>, answers: Answers)
      returns (r: Result<nat, ErrorClass>)
      requires Valid()
      modifies this
      ensures Valid() && Forward(old(invoices), invoices, UntimedIn(pages))
      ensures cursor == if r.Success? then Some(startedAt) else old(cursor)
      ensures var p := ThroughPages(old(Begun()), reserved, pages, answers);
        && Store(contacts, invoices) == p.store && failed == p.failed
        && (r.Success? <==> customersPhase.None? && p.stopped.None?) && (r.Success? ==> r.value == p.touched)
      // a page that cannot be listed, or a failure that is not one record's own, leaves the cursor where it was
      ensures forall k: nat, error | FailsAtPage(old(Begun()), reserved, pages, answers, k, error) ::
        r == Failure(error) && cursor == old(cursor)
      ensures r.Success? ==>
        customersPhase.None? && forall k | 0 <= k < |pages| :: PageDealt(pages[k], invoices, failed, UntimedIn(pages))
    {
      forall k: nat, error | FailsAtPage(Begun(), reserved, pages, answers, k, error)
        ensures ThroughPages(Begun(), reserved, pages, answers).stopped == Some(error)
      {
        StoppedIff(Begun(), reserved, pages, answers, error);
      }
      r := PullInvoices(pages, answers);
      if r.Failure? { return; }
      if customersPhase.Some? { return Failure(customersPhase.value); }
      cursor := Some(startedAt);
    }
  }
}
