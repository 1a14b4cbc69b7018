/** The full contact scan: what is due, what a scan leaves fresh, and which customers it archives. */
module ContactPull {
  import opened Common
  import opened ZohoRecords

  type ContactId = nat

  datatype Status = ACTIVE | ARCHIVED

  datatype Customer = Customer(version: Option<Time>, status: Status, createdAt: Time)

  /** One entry of a list page. Only the word "inactive" archives. */
  datatype ListItem = ListItem(contactId: ContactId, version: Option<Time>, inactive: bool)

  /** What a detail request answers. */
  datatype Detail = Contact(version: Option<Time>, inactive: bool) | Refused(error: ErrorClass)

  function MapContactStatus(inactive: bool): Status {
    if inactive then ARCHIVED else ACTIVE
  }

  /** Judged against the stored version; the cursor decides only for a row that has none. */
  predicate IsContactDue(item: ListItem, versions: map<ContactId, Option<Time>>, cursor: Option<Time>, force: bool) {
    || item.version.None?
    || item.contactId !in versions
    || (match versions[item.contactId]
        case Some(stored) => item.version.value > stored
        case None => force || cursor.None? || item.version.value > cursor.value)
  }

  /** The row holds the listed version or a newer one. */
  predicate Fresh(customers: map<ContactId, Customer>, item: ListItem) {
    && item.contactId in customers
    && item.version.Some? && customers[item.contactId].version.Some?
    && customers[item.contactId].version.value >= item.version.value
  }

  /** Rows are never lost; versions only move forward, and a new row has one, except where a detail gives no time to store. */
  ghost predicate Forward(before: map<ContactId, Customer>, after: map<ContactId, Customer>, untimed: set<ContactId>) {
    && (forall c | c in before ::
      && c in after
      && (c !in untimed && before[c].version.Some? ==>
            after[c].version.Some? && after[c].version.value >= before[c].version.value))
    && (forall c | c in after && c !in before && c !in untimed :: after[c].version.Some?)
  }

  /** Contacts of a page whose fetched detail carries no time. */
  ghost function Untimed(page: seq<ListItem>, fetch: ContactId -> Detail): set<ContactId> {
    set i | i in page && fetch(i.contactId).Contact? && fetch(i.contactId).version.None? :: i.contactId
  }

  ghost function UntimedIn(pages: seq<seq<ListItem>>, fetch: seq<ContactId -> Detail>): set<ContactId>
    requires |fetch| == |pages|
  {
    set k, i | 0 <= k < |pages| && i in pages[k]
      && fetch[k](i.contactId).Contact? && fetch[k](i.contactId).version.None? :: i.contactId
  }

  ghost predicate SameRow(before: map<ContactId, Customer>, after: map<ContactId, Customer>, c: ContactId) {
    (c in before <==> c in after) && (c in before ==> after[c] == before[c])
  }

  /** Every listed contact that the cursor may not hold back: unknown, versioned, past the cursor, or listed without a time. */
  predicate Covered(before: map<ContactId, Customer>, item: ListItem, cursor: Option<Time>, force: bool) {
    || item.version.None?
    || item.contactId !in before || before[item.contactId].version.Some?
    || force || cursor.None? || item.version.value > cursor.value
  }

  /** The listed version is stored, or a newer one; where either answer gives no time, the contact is at least stored. */
  ghost predicate Dealt(customers: map<ContactId, Customer>, untimed: set<ContactId>, item: ListItem) {
    if item.contactId in untimed || item.version.None? then item.contactId in customers else Fresh(customers, item)
  }

  lemma ForwardKeepsCovered(
    a: map<ContactId, Customer>, b: map<ContactId, Customer>, untimed: set<ContactId>, item: ListItem, cursor: Option<Time>, force: bool)
    requires Forward(a, b, untimed) && Covered(a, item, cursor, force)
    ensures Covered(b, item, cursor, force) || (item.contactId in untimed && item.contactId in b)
  {
  }

  /** Times of one contact only grow: a detail is no older than the list entry it was fetched for, when both have one. */
  ghost predicate Consistent(page: seq<ListItem>, fetch: ContactId -> Detail) {
    forall i | i in page && i.version.Some? && fetch(i.contactId).Contact? && fetch(i.contactId).version.Some? ::
      fetch(i.contactId).version.value >= i.version.value
  }

  // --- Reconciliation ------------------------------------------------------------------------

  predicate KnownToZoho(seen: seq<ListItem>, c: ContactId) {
    exists i | i in seen :: i.contactId == c
  }

  predicate ActiveInZoho(seen: seq<ListItem>, c: ContactId) {
    exists i | i in seen :: i.contactId == c && !i.inactive
  }

  ghost predicate Listed(pages: seq<seq<ListItem>>, c: ContactId) {
    exists k | 0 <= k < |pages| :: KnownToZoho(pages[k], c)
  }

  /** Page `k` is the first to list the contact. */
  ghost predicate FirstListed(pages: seq<seq<ListItem>>, k: nat, c: ContactId)
    requires k < |pages|
  {
    KnownToZoho(pages[k], c) && forall j | 0 <= j < k :: !KnownToZoho(pages[j], c)
  }

  function Reconciled(customer: Customer, c: ContactId, seen: seq<ListItem>, now: Time): Customer {
    if seen == [] then customer
    else if !KnownToZoho(seen, c) && customer.createdAt > now - RECONCILE_CREATION_GRACE then customer
    else if !ActiveInZoho(seen, c) && customer.status.ACTIVE? then customer.(status := ARCHIVED)
    else if ActiveInZoho(seen, c) && customer.status.ARCHIVED? then customer.(status := ACTIVE)
    else customer
  }

  /** Outside the grace of ten minutes a row is active exactly when Zoho reports it active; inside it, or on an empty scan, nothing moves. */
  lemma ReconciledMeans(customer: Customer, c: ContactId, seen: seq<ListItem>, now: Time)
    ensures var r := Reconciled(customer, c, seen, now);
      && r == customer.(status := r.status)
      && (seen != [] && (KnownToZoho(seen, c) || customer.createdAt <= now - 600_000) ==>
            (r.status.ACTIVE? <==> exists i | i in seen :: i.contactId == c && !i.inactive))
      && (seen == [] || (!KnownToZoho(seen, c) && customer.createdAt > now - 600_000) ==> r == customer)
      && Reconciled(r, c, seen, now) == r
  {
    if ActiveInZoho(seen, c) {
      var i :| i in seen && i.contactId == c && !i.inactive;
      assert KnownToZoho(seen, c);
    }
  }

  /** Where the presence check breaks off: its two bulk writes are transactions of their own. */
  datatype Fault = NoFault | BeforeArchive | BeforeActivate

  /** What a check that may break off leaves of one row. */
  function Presence(customer: Customer, c: ContactId, seen: seq<ListItem>, now: Time, fault: Fault): Customer {
    var whole := Reconciled(customer, c, seen, now);
    match fault
    case NoFault => whole
    case BeforeArchive => customer
    case BeforeActivate => if whole.status.ARCHIVED? then whole else customer
  }

  /** A check that broke off anywhere is made good by the next one over the same report. */
  lemma NextCheckRepairs(customer: Customer, c: ContactId, seen: seq<ListItem>, now: Time, fault: Fault)
    ensures Reconciled(Presence(customer, c, seen, now, fault), c, seen, now) == Reconciled(customer, c, seen, now)
  {
    ReconciledMeans(customer, c, seen, now);
  }

  /** A refusal that says nothing about this one contact. */
  ghost predicate Fatal(detail: Detail) {
    detail.Refused? && (detail.error.AUTHENTICATION? || detail.error.TRANSIENT? || detail.error.Unknown?)
  }

  /** Zoho's copy may be newer than the row: judged by the stored version, and by the cursor where there is none. */
  ghost predicate Ahead(customers: map<ContactId, Customer>, item: ListItem, cursor: Option<Time>, force: bool) {
    && (item.version.Some? && item.contactId in customers && customers[item.contactId].version.Some? ==>
          customers[item.contactId].version.value < item.version.value)
    && (item.version.Some? && item.contactId in customers && customers[item.contactId].version.None? && cursor.Some? ==>
          force || cursor.value < item.version.value)
  }

  ghost predicate AheadIn(customers: map<ContactId, Customer>, page: seq<ListItem>, c: ContactId, cursor: Option<Time>, force: bool) {
    exists i | i in page :: i.contactId == c && Ahead(customers, i, cursor, force)
  }

  /** Some contact of the page that has to be fetched is refused for a reason that is not its own. */
  ghost predicate FatalAhead(
    customers: map<ContactId, Customer>, page: seq<ListItem>, cursor: Option<Time>, force: bool, fetch: ContactId -> Detail)
  {
    exists i | i in page :: Ahead(customers, i, cursor, force) && Fatal(fetch(i.contactId))
  }

  /** No contact that has to be fetched, judged by the rows before the scan, is so refused where it is first listed. */
  ghost predicate NoneFatal(
    customers: map<ContactId, Customer>, pages: seq<seq<ListItem>>, k: nat, cursor: Option<Time>, force: bool, fetch: ContactId -> Detail)
    requires k < |pages|
  {
    forall i | i in pages[k] && FirstListed(pages, k, i.contactId) && Ahead(customers, i, cursor, force) ::
      !Fatal(fetch(i.contactId))
  }

  /** Zoho's answer for some contact of these pages ends the scan. */
  ghost predicate SomeFatal(page: seq<ListItem>, fetch: ContactId -> Detail) {
    exists i | i in page :: Fatal(fetch(i.contactId))
  }

  function WithStatus(customers: map<ContactId, Customer>, ids: set<ContactId>, status: Status): (r: map<ContactId, Customer>)
    ensures r.Keys == customers.Keys
    ensures forall c | c in r :: r[c] == if c in ids then customers[c].(status := status) else customers[c]
  {
    map c | c in customers :: if c in ids then customers[c].(status := status) else customers[c]
  }

  // --- The scan, contact by contact --------------------------------------------------------------

  /** What the scan has done so far: the rows, how many it wrote and passed over, and what ended it. */
  datatype Progress = Progress(customers: map<ContactId, Customer>, touched: nat, tolerated: nat, stopped: Option<ErrorClass>)

  function Versions(customers: map<ContactId, Customer>): map<ContactId, Option<Time>> {
    map c | c in customers :: customers[c].version
  }

  /** One listed contact, if due: a refusal of that contact alone is passed over, any other ends the scan. */
  function Passed(
    p: Progress, versions: map<ContactId, Option<Time>>, item: ListItem, cursor: Option<Time>, force: bool, detail: Detail, now: Time)
    : Progress
  {
    if p.stopped.Some? || !IsContactDue(item, versions, cursor, force) then p
    else
      match detail
      case Refused(error) =>
        if error.AUTHENTICATION? || error.TRANSIENT? || error.Unknown? then p.(stopped := Some(error))
        else p.(tolerated := p.tolerated + 1)
      case Contact(version, inactive) =>
        var c := item.contactId;
        if c in p.customers && IsOwnPushEcho(version, p.customers[c].version) then p
        else
          var row := Customer(version, if inactive then ARCHIVED else ACTIVE, if c in p.customers then p.customers[c].createdAt else now);
          p.(customers := p.customers[c := row], touched := p.touched + 1)
  }

  function Through(
    p: Progress, versions: map<ContactId, Option<Time>>, page: seq<ListItem>, cursor: Option<Time>, force: bool,
    fetch: ContactId -> Detail, now: Time): Progress
  {
    if page == [] then p
    else
      var before, last := Through(p, versions, page[..|page| - 1], cursor, force, fetch, now), page[|page| - 1];
      Passed(before, versions, last, cursor, force, fetch(last.contactId), now)
  }

  /** Each page is judged by the versions stored when it is reached. */
  function ThroughPages(
    p: Progress, pages: seq<seq<ListItem>>, cursor: Option<Time>, force: bool, fetch: seq<ContactId -> Detail>, now: Time): Progress
    requires |fetch| == |pages|
  {
    if pages == [] then p
    else
      var last := |pages| - 1;
      var q := ThroughPages(p, pages[..last], cursor, force, fetch[..last], now);
      if q.stopped.Some? then q else Through(q, Versions(q.customers), pages[last], cursor, force, fetch[last], now)
  }

  lemma DueIffAhead(customers: map<ContactId, Customer>, item: ListItem, cursor: Option<Time>, force: bool)
    ensures IsContactDue(item, Versions(customers), cursor, force) <==> Ahead(customers, item, cursor, force)
  {
  }

  lemma {:induction false} PageForward(
    p: Progress, versions: map<ContactId, Option<Time>>, page: seq<ListItem>, cursor: Option<Time>, force: bool,
    fetch: ContactId -> Detail, now: Time, untimed: set<ContactId>)
    requires Untimed(page, fetch) <= untimed
    ensures var q := Through(p, versions, page, cursor, force, fetch, now);
      && Forward(p.customers, q.customers, untimed) && p.tolerated <= q.tolerated
      && (p.stopped.Some? ==> q == p)
  {
    if page != [] {
      var prefix, last := page[..|page| - 1], page[|page| - 1];
      assert Untimed(prefix, fetch) <= Untimed(page, fetch);
      assert last in page;
      PageForward(p, versions, prefix, cursor, force, fetch, now, untimed);
    }
  }

  /** A contact that nothing listed is ahead of is not touched. */
  lemma {:induction false} PageTouches(
    p: Progress, versions: map<ContactId, Option<Time>>, page: seq<ListItem>, cursor: Option<Time>, force: bool,
    fetch: ContactId -> Detail, now: Time, c: ContactId)
    requires versions == Versions(p.customers) && !AheadIn(p.customers, page, c, cursor, force)
    ensures SameRow(p.customers, Through(p, versions, page, cursor, force, fetch, now).customers, c)
  {
    if page != [] {
      var last := page[|page| - 1];
      assert last in page && forall i | i in page[..|page| - 1] :: i in page;
      PageTouches(p, versions, page[..|page| - 1], cursor, force, fetch, now, c);
      DueIffAhead(p.customers, last, cursor, force);
    }
  }

  /** A page ends the scan exactly when a contact to be fetched is refused for a reason not its own. */
  lemma {:induction false} PageStops(
    p: Progress, versions: map<ContactId, Option<Time>>, page: seq<ListItem>, cursor: Option<Time>, force: bool,
    fetch: ContactId -> Detail, now: Time)
    requires versions == Versions(p.customers) && p.stopped.None?
    ensures var q := Through(p, versions, page, cursor, force, fetch, now);
      && (q.stopped.Some? <==> FatalAhead(p.customers, page, cursor, force, fetch))
      && (q.stopped.Some? ==> exists i | i in page :: Fatal(fetch(i.contactId)) && fetch(i.contactId).error == q.stopped.value)
  {
    if page != [] {
      var prefix, last := page[..|page| - 1], page[|page| - 1];
      assert page == prefix + [last];
      PageStops(p, versions, prefix, cursor, force, fetch, now);
      DueIffAhead(p.customers, last, cursor, force);
    }
  }

  /** Where nothing was passed over, a listed contact that the cursor does not hold back is dealt with. */
  lemma {:induction false} PageDeals(
    p: Progress, versions: map<ContactId, Option<Time>>, page: seq<ListItem>, cursor: Option<Time>, force: bool,
    fetch: ContactId -> Detail, now: Time, untimed: set<ContactId>, i: ListItem)
    requires Consistent(page, fetch) && Untimed(page, fetch) <= untimed && i in page
    requires versions == Versions(p.customers) && Covered(p.customers, i, cursor, force)
    ensures var q := Through(p, versions, page, cursor, force, fetch, now);
      q.stopped.None? && q.tolerated == p.tolerated ==> Dealt(q.customers, untimed, i)
  {
    var prefix, last := page[..|page| - 1], page[|page| - 1];
    assert page == prefix + [last];
    assert forall j | j in prefix :: j in page;
    assert Untimed(prefix, fetch) <= Untimed(page, fetch);
    assert Untimed([last], fetch) <= Untimed(page, fetch);
    PageForward(p, versions, prefix, cursor, force, fetch, now, untimed);
    var before := Through(p, versions, prefix, cursor, force, fetch, now);
    if i in prefix {
      PageDeals(p, versions, prefix, cursor, force, fetch, now, untimed, i);
      if Dealt(before.customers, untimed, i) {
        StaysDealt(before, versions, last, cursor, force, fetch, now, untimed, i);
      }
    } else {
      LastDealt(p, before, versions, last, cursor, force, fetch, now, untimed);
    }
  }

  lemma StaysDealt(
    before: Progress, versions: map<ContactId, Option<Time>>, last: ListItem, cursor: Option<Time>, force: bool,
    fetch: ContactId -> Detail, now: Time, untimed: set<ContactId>, i: ListItem)
    requires Untimed([last], fetch) <= untimed
    requires Dealt(before.customers, untimed, i)
    ensures Dealt(Passed(before, versions, last, cursor, force, fetch(last.contactId), now).customers, untimed, i)
  {
    assert fetch(last.contactId).Contact? && fetch(last.contactId).version.None? ==> last.contactId in Untimed([last], fetch);
  }

  lemma LastDealt(
    p: Progress, before: Progress, versions: map<ContactId, Option<Time>>, last: ListItem, cursor: Option<Time>, force: bool,
    fetch: ContactId -> Detail, now: Time, untimed: set<ContactId>)
    requires versions == Versions(p.customers) && Covered(p.customers, last, cursor, force)
    requires Forward(p.customers, before.customers, untimed) && p.tolerated <= before.tolerated
    requires Untimed([last], fetch) <= untimed && Consistent([last], fetch)
    ensures var q := Passed(before, versions, last, cursor, force, fetch(last.contactId), now);
      q.stopped.None? && q.tolerated == p.tolerated ==> Dealt(q.customers, untimed, last)
  {
    assert fetch(last.contactId).Contact? && fetch(last.contactId).version.None? ==> last.contactId in Untimed([last], fetch);
    assert last in [last];
  }

  // --- The scan, page by page ----------------------------------------------------------------------

  lemma {:induction false} ScanForward(
    p: Progress, pages: seq<seq<ListItem>>, cursor: Option<Time>, force: bool, fetch: seq<ContactId -> Detail>, now: Time,
    untimed: set<ContactId>)
    requires |fetch| == |pages| && UntimedIn(pages, fetch) <= untimed
    ensures var q := ThroughPages(p, pages, cursor, force, fetch, now);
      Forward(p.customers, q.customers, untimed) && p.tolerated <= q.tolerated
  {
    if pages != [] {
      var last := |pages| - 1;
      UntimedParts(pages, fetch);
      ScanForward(p, pages[..last], cursor, force, fetch[..last], now, untimed);
      var q := ThroughPages(p, pages[..last], cursor, force, fetch[..last], now);
      PageForward(q, Versions(q.customers), pages[last], cursor, force, fetch[last], now, untimed);
    }
  }

  lemma UntimedParts(pages: seq<seq<ListItem>>, fetch: seq<ContactId -> Detail>)
    requires |fetch| == |pages| > 0
    ensures var last := |pages| - 1;
      && UntimedIn(pages[..last], fetch[..last]) <= UntimedIn(pages, fetch)
      && Untimed(pages[last], fetch[last]) <= UntimedIn(pages, fetch)
  {
  }

  lemma {:induction false} ScanTouches(
    p: Progress, pages: seq<seq<ListItem>>, cursor: Option<Time>, force: bool, fetch: seq<ContactId -> Detail>, now: Time, c: ContactId)
    requires |fetch| == |pages| && !Listed(pages, c)
    ensures SameRow(p.customers, ThroughPages(p, pages, cursor, force, fetch, now).customers, c)
  {
    if pages != [] {
      var last := |pages| - 1;
      assert forall k | 0 <= k < last :: pages[..last][k] == pages[k];
      assert !KnownToZoho(pages[last], c);
      ScanTouches(p, pages[..last], cursor, force, fetch[..last], now, c);
      var q := ThroughPages(p, pages[..last], cursor, force, fetch[..last], now);
      if q.stopped.None? {
        PageTouches(q, Versions(q.customers), pages[last], cursor, force, fetch[last], now, c);
      }
    }
  }

  /** A scan that came through met no contact, where it is first listed, that was to be fetched and refused for a reason not its own. */
  lemma {:induction false} ScanStops(
    p: Progress, pages: seq<seq<ListItem>>, cursor: Option<Time>, force: bool, fetch: seq<ContactId -> Detail>, now: Time)
    requires |fetch| == |pages| && p.stopped.None?
    ensures var q := ThroughPages(p, pages, cursor, force, fetch, now);
      && (q.stopped.Some? ==> exists k | 0 <= k < |pages| :: SomeFatal(pages[k], fetch[k]))
      && (q.stopped.None? ==> forall k | 0 <= k < |pages| :: NoneFatal(p.customers, pages, k, cursor, force, fetch[k]))
  {
    if pages != [] {
      var last := |pages| - 1;
      var prefix, answers := pages[..last], fetch[..last];
      ScanStops(p, prefix, cursor, force, answers, now);
      var q := ThroughPages(p, prefix, cursor, force, answers, now);
      if q.stopped.Some? {
        var k :| 0 <= k < last && SomeFatal(prefix[k], answers[k]);
        assert SomeFatal(pages[k], fetch[k]);
      } else {
        PageStops(q, Versions(q.customers), pages[last], cursor, force, fetch[last], now);
        if FatalAhead(q.customers, pages[last], cursor, force, fetch[last]) {
          assert SomeFatal(pages[last], fetch[last]);
        } else {
          forall k | 0 <= k < last ensures NoneFatal(p.customers, pages, k, cursor, force, fetch[k]) {
            assert NoneFatal(p.customers, prefix, k, cursor, force, answers[k]);
          }
          FirstListedIsJudgedEarly(p, pages, cursor, force, fetch, now);
        }
      }
    }
  }

  /** A contact the last page is the first to list has the row it had before the scan when that page is judged. */
  lemma FirstListedIsJudgedEarly(
    p: Progress, pages: seq<seq<ListItem>>, cursor: Option<Time>, force: bool, fetch: seq<ContactId -> Detail>, now: Time)
    requires |fetch| == |pages| > 0
    requires var q := ThroughPages(p, pages[..|pages| - 1], cursor, force, fetch[..|pages| - 1], now);
      !FatalAhead(q.customers, pages[|pages| - 1], cursor, force, fetch[|pages| - 1])
    ensures NoneFatal(p.customers, pages, |pages| - 1, cursor, force, fetch[|pages| - 1])
  {
    var last := |pages| - 1;
    var q := ThroughPages(p, pages[..last], cursor, force, fetch[..last], now);
    forall i | i in pages[last] && FirstListed(pages, last, i.contactId) && Ahead(p.customers, i, cursor, force)
      ensures !Fatal(fetch[last](i.contactId))
    {
      ScanTouches(p, pages[..last], cursor, force, fetch[..last], now, i.contactId);
      assert Ahead(q.customers, i, cursor, force);
    }
  }

  lemma {:induction false} ScanDeals(
    p: Progress, pages: seq<seq<ListItem>>, cursor: Option<Time>, force: bool, fetch: seq<ContactId -> Detail>, now: Time,
    untimed: set<ContactId>, k: nat, i: ListItem)
    requires |fetch| == |pages| && k < |pages| && i in pages[k] && UntimedIn(pages, fetch) <= untimed
    requires forall j | 0 <= j < |pages| :: Consistent(pages[j], fetch[j])
    requires Covered(p.customers, i, cursor, force)
    ensures var q := ThroughPages(p, pages, cursor, force, fetch, now);
      q.stopped.None? && q.tolerated == p.tolerated ==> Dealt(q.customers, untimed, i)
  {
    var last := |pages| - 1;
    UntimedParts(pages, fetch);
    ScanForward(p, pages[..last], cursor, force, fetch[..last], now, untimed);
    var before := ThroughPages(p, pages[..last], cursor, force, fetch[..last], now);
    PageForward(before, Versions(before.customers), pages[last], cursor, force, fetch[last], now, untimed);
    if k < last {
      ScanDeals(p, pages[..last], cursor, force, fetch[..last], now, untimed, k, i);
    } else {
      ForwardKeepsCovered(p.customers, before.customers, untimed, i, cursor, force);
      if Covered(before.customers, i, cursor, force) {
        PageDeals(before, Versions(before.customers), pages[last], cursor, force, fetch[last], now, untimed, i);
      }
    }
  }

  /** Once a page or a scan has ended, what it had not reached changes nothing. */
  lemma {:induction false} PageEnds(
    p: Progress, versions: map<ContactId, Option<Time>>, page: seq<ListItem>, cursor: Option<Time>, force: bool,
    fetch: ContactId -> Detail, now: Time, n: nat)
    requires n <= |page|
    ensures var q := Through(p, versions, page[..n], cursor, force, fetch, now);
      q.stopped.Some? ==> Through(p, versions, page, cursor, force, fetch, now) == q
  {
    if n == |page| {
      assert page[..n] == page;
    } else {
      PageEnds(p, versions, page[..|page| - 1], cursor, force, fetch, now, n);
      assert page[..|page| - 1][..n] == page[..n];
    }
  }

  lemma {:induction false} PagesEnd(
    p: Progress, pages: seq<seq<ListItem>>, cursor: Option<Time>, force: bool, fetch: seq<ContactId -> Detail>, now: Time, n: nat)
    requires |fetch| == |pages| && n <= |pages|
    ensures var q := ThroughPages(p, pages[..n], cursor, force, fetch[..n], now);
      q.stopped.Some? ==> ThroughPages(p, pages, cursor, force, fetch, now) == q
  {
    var last := |pages| - 1;
    if n == |pages| {
      assert pages[..n] == pages && fetch[..n] == fetch;
    } else {
      PagesEnd(p, pages[..last], cursor, force, fetch[..last], now, n);
      assert pages[..last][..n] == pages[..n] && fetch[..last][..n] == fetch[..n];
    }
  }

  lemma ScanMeans(
    p: Progress, pages: seq<seq<ListItem>>, cursor: Option<Time>, force: bool, fetch: seq<ContactId -> Detail>, now: Time)
    requires |fetch| == |pages| && (forall k | 0 <= k < |pages| :: Consistent(pages[k], fetch[k])) && p.stopped.None?
    ensures var q, untimed := ThroughPages(p, pages, cursor, force, fetch, now), UntimedIn(pages, fetch);
      && Forward(p.customers, q.customers, untimed)
      && (forall c | !Listed(pages, c) :: SameRow(p.customers, q.customers, c))
      && (q.stopped.Some? ==> exists k | 0 <= k < |pages| :: SomeFatal(pages[k], fetch[k]))
      && (q.stopped.None? ==> forall k | 0 <= k < |pages| :: NoneFatal(p.customers, pages, k, cursor, force, fetch[k]))
      && (q.stopped.None? && q.tolerated == p.tolerated ==>
            forall k, i | 0 <= k < |pages| && i in pages[k] && Covered(p.customers, i, cursor, force) ::
              Dealt(q.customers, untimed, i))
  {
    var q, untimed := ThroughPages(p, pages, cursor, force, fetch, now), UntimedIn(pages, fetch);
    ScanForward(p, pages, cursor, force, fetch, now, untimed);
    ScanStops(p, pages, cursor, force, fetch, now);
    forall c | !Listed(pages, c) ensures SameRow(p.customers, q.customers, c) {
      ScanTouches(p, pages, cursor, force, fetch, now, c);
    }
    forall k, i | 0 <= k < |pages| && i in pages[k] && Covered(p.customers, i, cursor, force)
      ensures q.stopped.None? && q.tolerated == p.tolerated ==> Dealt(q.customers, untimed, i)
    {
      ScanDeals(p, pages, cursor, force, fetch, now, untimed, k, i);
    }
  }

  class Contacts {
    var customers: map<ContactId, Customer>

    constructor (customers: map<ContactId, Customer>)
      ensures this.customers == customers
    {
      this.customers := customers;
    }

    /** Applies one fetched contact: an echo is skipped, anything newer or unversioned is written. */
    method PullOneCustomer(contactId: ContactId, detail: Detail, now: Time) returns (r: Result<bool, ErrorClass>)
      modifies this
      ensures r.Failure? <==> detail.Refused?
      ensures r.Failure? ==> r.error == detail.error
      ensures r != Success(true) ==> customers == old(customers)
      ensures r == Success(false) <==>
        && detail.Contact? && detail.version.Some? && contactId in old(customers) && old(customers)[contactId].version.Some?
        && detail.version.value <= old(customers)[contactId].version.value
      ensures r == Success(true) ==>
        customers == old(customers)[contactId := Customer(detail.version, if detail.inactive then ARCHIVED else ACTIVE,
          if contactId in old(customers) then old(customers)[contactId].createdAt else now)]
      ensures detail.Contact? ==>
        && contactId in customers && Forward(old(customers), customers, if detail.version.None? then {contactId} else {})
        && (detail.version.Some? ==> Fresh(customers, ListItem(contactId, detail.version, detail.inactive)))
    {
      match detail {
        case Refused(error) => return Failure(error);
        case Contact(version, inactive) =>
          var known := contactId in customers;
          if known && IsOwnPushEcho(version, customers[contactId].version) { return Success(false); }
          customers := customers[contactId := Customer(version, MapContactStatus(inactive),
            if known then customers[contactId].createdAt else now)];
          return Success(true);
      }
    }

    /** A failure of this one record is swallowed; a systemic or unknown one is not. */
    method PullTolerantly(contactId: ContactId, detail: Detail, now: Time)
      returns (r: Result<bool, ErrorClass>, tolerated: bool)
      modifies this
      ensures r.Failure? <==> Fatal(detail)
      ensures r.Failure? ==> r.error == detail.error
      ensures tolerated <==> detail.Refused? && (detail.error.VALIDATION? || detail.error.CONFLICT? || detail.error.PERMANENT?)
      ensures tolerated ==> r == Success(false)
      ensures r == Success(true) ==>
        && detail.Contact?
        && customers == old(customers)[contactId := Customer(detail.version, if detail.inactive then ARCHIVED else ACTIVE,
             if contactId in old(customers) then old(customers)[contactId].createdAt else now)]
      ensures r != Success(true) ==> customers == old(customers)
      ensures detail.Contact? ==>
        (r == Success(false) <==> contactId in old(customers) && IsOwnPushEcho(detail.version, old(customers)[contactId].version))
      ensures forall c | c != contactId :: SameRow(old(customers), customers, c)
      ensures detail.Contact? ==>
        && contactId in customers && Forward(old(customers), customers, if detail.version.None? then {contactId} else {})
        && (detail.version.Some? ==> Fresh(customers, ListItem(contactId, detail.version, detail.inactive)))
    {
      r := PullOneCustomer(contactId, detail, now);
      tolerated := r.Failure? && Tolerated(r.error);
      if tolerated { r := Success(false); }
    }

    /** One listed contact: fetched and applied if it is due. */
    method PullDue(
      item: ListItem, versions: map<ContactId, Option<Time>>, cursor: Option<Time>, force: bool, detail: Detail, now: Time, soFar: Progress)
      returns (q: Progress)
      requires soFar.stopped.None? && soFar.customers == customers
      modifies this
      ensures q == Passed(soFar, versions, item, cursor, force, detail, now) && q.customers == customers
    {
      if !IsContactDue(item, versions, cursor, force) { return soFar; }
      var applied, swallowed := PullTolerantly(item.contactId, detail, now);
      assert applied.Success? ==> applied == Success(applied.value);
      q := Progress(customers,
        if applied.Success? && applied.value then soFar.touched + 1 else soFar.touched,
        if swallowed then soFar.tolerated + 1 else soFar.tolerated,
        if applied.Failure? then Some(applied.error) else None);
    }

    /** One page: the versions are read once, then every due contact is fetched and applied. */
    method PullPage(page: seq<ListItem>, cursor: Option<Time>, force: bool, fetch: ContactId -> Detail, now: Time, soFar: Progress)
      returns (q: Progress)
      requires soFar.stopped.None? && soFar.customers == customers
      modifies this
      ensures q == Through(soFar, Versions(old(customers)), page, cursor, force, fetch, now) && q.customers == customers
    {
      var versions := map c | c in customers :: customers[c].version;
      var n := 0;
      q := soFar;
      while n < |page|
        invariant n <= |page|
        invariant q == Through(soFar, versions, page[..n], cursor, force, fetch, now)
        invariant q.customers == customers && q.stopped.None?
      {
        assert page[..n + 1][..n] == page[..n];
        q := PullDue(page[n], versions, cursor, force, fetch(page[n].contactId), now, q);
        PageEnds(soFar, versions, page, cursor, force, fetch, now, n + 1);
        if q.stopped.Some? { return; }
        n := n + 1;
      }
      assert page[..n] == page;
    }

    /** The scan: a full pass over every page, whatever the brand's cursor. */
    method PullCustomers(pages: seq<seq<ListItem>>, cursor: Option<Time>, force: bool, fetch: seq<ContactId -> Detail>, now: Time)
      returns (r: Result<nat, ErrorClass>, seen: seq<ListItem>, tolerated: nat)
      requires |fetch| == |pages| && forall k | 0 <= k < |pages| :: Consistent(pages[k], fetch[k])
      modifies this
      ensures Forward(old(customers), customers, UntimedIn(pages, fetch))
      ensures forall c | !Listed(pages, c) :: SameRow(old(customers), customers, c)
      ensures r.Failure? ==> exists k | 0 <= k < |pages| :: SomeFatal(pages[k], fetch[k])
      ensures r.Success? ==> forall k | 0 <= k < |pages| :: NoneFatal(old(customers), pages, k, cursor, force, fetch[k])
      ensures r.Success? ==> forall i :: i in seen <==> exists k :: 0 <= k < |pages| && i in pages[k]
      ensures r.Success? && tolerated == 0 ==>
        forall k, i | 0 <= k < |pages| && i in pages[k] && Covered(old(customers), i, cursor, force) ::
          Dealt(customers, UntimedIn(pages, fetch), i)
    {
      var begun := Progress(customers, 0, 0, None);
      var k, q := 0, begun;
      seen := [];
      while k < |pages| && q.stopped.None?
        invariant k <= |pages|
        invariant q == ThroughPages(begun, pages[..k], cursor, force, fetch[..k], now) && q.customers == customers
        invariant forall i :: i in seen <==> exists j :: 0 <= j < k && i in pages[j]
      {
        seen := seen + pages[k];
        assert pages[..k + 1][..k] == pages[..k] && fetch[..k + 1][..k] == fetch[..k];
        q := PullPage(pages[k], cursor, force, fetch[k], now, q);
        k := k + 1;
      }
      PagesEnd(begun, pages, cursor, force, fetch, now, k);
      assert k == |pages| ==> pages[..k] == pages && fetch[..k] == fetch;
      ScanMeans(begun, pages, cursor, force, fetch, now);
      tolerated := q.tolerated;
      r := if q.stopped.Some? then Failure(q.stopped.value) else Success(q.touched);
    }

    method ReconcileContactPresence(seen: seq<ListItem>, now: Time, fault: Fault)
      modifies this
      ensures customers.Keys == old(customers).Keys
      ensures forall c | c in customers :: customers[c] == Presence(old(customers)[c], c, seen, now, fault)
    {
      if |seen| == 0 { return; }
      var activeInZoho := set i | i in seen && MapContactStatus(i.inactive).ACTIVE? :: i.contactId;
      var knownToZoho := set i | i in seen :: i.contactId;
      assert forall c :: c in activeInZoho <==> ActiveInZoho(seen, c);
      assert forall c :: c in knownToZoho <==> KnownToZoho(seen, c);
      Archive(activeInZoho, knownToZoho, now - RECONCILE_CREATION_GRACE, fault);
    }

    /** Two writes over one reading of the rows. */
    method Archive(activeInZoho: set<ContactId>, knownToZoho: set<ContactId>, createdBefore: Time, fault: Fault)
      modifies this
      ensures customers.Keys == old(customers).Keys
      ensures forall c | c in customers ::
        var was := old(customers)[c];
        var status := if c in activeInZoho then ACTIVE else ARCHIVED;
        customers[c] == if c !in knownToZoho && was.createdAt > createdBefore then was
                        else if fault.BeforeArchive? || (fault.BeforeActivate? && status.ACTIVE?) then was
                        else was.(status := status)
    {
      var judged := set c | c in customers && (c in knownToZoho || customers[c].createdAt <= createdBefore);
      var toArchive := set c | c in judged && c !in activeInZoho && customers[c].status.ACTIVE?;
      var toActivate := set c | c in judged && c in activeInZoho && customers[c].status.ARCHIVED?;
      if fault.BeforeArchive? { return; }
      customers := WithStatus(customers, toArchive, ARCHIVED);
      if fault.BeforeActivate? { return; }
      customers := WithStatus(customers, toActivate, ACTIVE);
    }

    /** The scan and then, only if it completed, the presence check over everything it saw, whose failure is swallowed. */
    method PullAndReconcileCustomers(
      pages: seq<seq<ListItem>>, cursor: Option<Time>, force: bool, fetch: seq<ContactId -> Detail>, now: Time, fault: Fault)
      returns (r: Result<nat, ErrorClass>, tolerated: nat)
      requires |fetch| == |pages| && forall k | 0 <= k < |pages| :: Consistent(pages[k], fetch[k])
      modifies this
      // only a contact that cannot be passed over fails the phase: the presence check never does
      ensures r.Failure? ==> exists k | 0 <= k < |pages| :: SomeFatal(pages[k], fetch[k])
      ensures r.Success? ==> forall k | 0 <= k < |pages| :: NoneFatal(old(customers), pages, k, cursor, force, fetch[k])
      // everything listed and not held back by the cursor is at least as new as listed
      ensures r.Success? && tolerated == 0 ==>
        forall k, i | 0 <= k < |pages| && i in pages[k] && Covered(old(customers), i, cursor, force) ::
          Dealt(customers, UntimedIn(pages, fetch), i)
      // after a whole check a listed customer is active exactly when some entry says so
      ensures r.Success? && fault.NoFault? ==> forall c | c in customers && Listed(pages, c) ::
        customers[c].status.ACTIVE? <==> exists k | 0 <= k < |pages| :: ActiveInZoho(pages[k], c)
      // an unlisted one is archived exactly when the grace is over and Zoho listed anything; nothing else of it moves
      ensures r.Success? ==> forall c | !Listed(pages, c) :: (c in customers <==> c in old(customers))
      ensures r.Success? ==> forall c | c in customers && !Listed(pages, c) ::
        var was := old(customers)[c];
        customers[c] == if fault.BeforeArchive? || (forall k | 0 <= k < |pages| :: pages[k] == [])
                             || was.createdAt > now - 600_000 then was else was.(status := ARCHIVED)
      // a phase that failed judged no one's absence
      ensures r.Failure? ==> forall c | !Listed(pages, c) :: SameRow(old(customers), customers, c)
    {
      var seen;
      r, seen, tolerated := PullCustomers(pages, cursor, force, fetch, now);
      if r.Failure? { return; }
      ghost var scanned := customers;
      ReconcileContactPresence(seen, now, fault);
      forall c | c in customers ensures customers[c].version == scanned[c].version {
        ReconciledMeans(scanned[c], c, seen, now);
      }
      SameVersionsDealt(scanned, customers, UntimedIn(pages, fetch));
      forall c | c in customers ensures CheckedRow(scanned[c], customers[c], pages, c, now, fault) {
        PresenceMeans(scanned[c], c, seen, pages, now, fault);
      }
    }
  }

  lemma SameVersionsDealt(a: map<ContactId, Customer>, b: map<ContactId, Customer>, untimed: set<ContactId>)
    requires a.Keys == b.Keys && forall c | c in b :: b[c].version == a[c].version
    ensures forall i | Dealt(a, untimed, i) :: Dealt(b, untimed, i)
  {
  }

  /** What a presence check after a whole scan of these pages makes of one row. */
  ghost predicate CheckedRow(was: Customer, row: Customer, pages: seq<seq<ListItem>>, c: ContactId, now: Time, fault: Fault) {
    && (fault.NoFault? && Listed(pages, c) ==>
          (row.status.ACTIVE? <==> exists k | 0 <= k < |pages| :: ActiveInZoho(pages[k], c)))
    && (!Listed(pages, c) ==>
          row == if fault.BeforeArchive? || (forall k | 0 <= k < |pages| :: pages[k] == [])
                    || was.createdAt > now - 600_000 then was else was.(status := ARCHIVED))
  }

  lemma PresenceMeans(was: Customer, c: ContactId, seen: seq<ListItem>, pages: seq<seq<ListItem>>, now: Time, fault: Fault)
    requires forall i :: i in seen <==> exists k :: 0 <= k < |pages| && i in pages[k]
    ensures CheckedRow(was, Presence(was, c, seen, now, fault), pages, c, now, fault)
  {
    ReconciledMeans(was, c, seen, now);
    SeenMeans(seen, pages, c);
    NoneSeen(seen, pages);
  }

  lemma SeenMeans(seen: seq<ListItem>, pages: seq<seq<ListItem>>, c: ContactId)
    requires forall i :: i in seen <==> exists k :: 0 <= k < |pages| && i in pages[k]
    ensures KnownToZoho(seen, c) <==> Listed(pages, c)
    ensures ActiveInZoho(seen, c) <==> exists k | 0 <= k < |pages| :: ActiveInZoho(pages[k], c)
    ensures ActiveInZoho(seen, c) ==> KnownToZoho(seen, c)
    ensures KnownToZoho(seen, c) ==> seen != []
  {
    if ActiveInZoho(seen, c) {
      var i :| i in seen && i.contactId == c && !i.inactive;
      var k :| 0 <= k < |pages| && i in pages[k];
      assert ActiveInZoho(pages[k], c);
    }
    if KnownToZoho(seen, c) {
      var i :| i in seen && i.contactId == c;
      var k :| 0 <= k < |pages| && i in pages[k];
      assert KnownToZoho(pages[k], c);
    }
  }

  lemma NoneSeen(seen: seq<ListItem>, pages: seq<seq<ListItem>>)
    requires forall i :: i in seen <==> exists k :: 0 <= k < |pages| && i in pages[k]
    ensures seen == [] <==> forall k | 0 <= k < |pages| :: pages[k] == []
  {
    if seen != [] { assert seen[0] in seen; }
    if k :| 0 <= k < |pages| && pages[k] != [] { assert pages[k][0] in pages[k] && pages[k][0] in seen; }
  }
}
