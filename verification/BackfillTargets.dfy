/** Which push jobs a backfill queues, and when they can all run at once. */
module BackfillTargets {
  import opened BackfillRuns

  datatype Payment = Payment(id: Id, invoiceId: Id, customerId: Id)
  datatype Invoice = Invoice(id: Id, customerId: Id)

  datatype Targets = Targets(customers: seq<Id>, invoices: seq<Invoice>, payments: seq<Payment>)

  function InvoicesNotIn(invoices: seq<Invoice>, covered: set<Id>): (r: seq<Invoice>)
    ensures forall i :: i in r <==> i in invoices && i.id !in covered
  {
    if invoices == [] then []
    else
      var before, last := InvoicesNotIn(invoices[..|invoices| - 1], covered), invoices[|invoices| - 1];
      assert invoices == invoices[..|invoices| - 1] + [last];
      if last.id in covered then before else before + [last]
  }

  function CustomersNotIn(customers: seq<Id>, covered: set<Id>): (r: seq<Id>)
    ensures forall c :: c in r <==> c in customers && c !in covered
  {
    if customers == [] then []
    else
      var before, last := CustomersNotIn(customers[..|customers| - 1], covered), customers[|customers| - 1];
      assert customers == customers[..|customers| - 1] + [last];
      if last in covered then before else before + [last]
  }

  function CoveredInvoices(payments: seq<Payment>): set<Id> {
    set p | p in payments :: p.invoiceId
  }

  function CoveredCustomers(payments: seq<Payment>, invoices: seq<Invoice>): set<Id> {
    (set p | p in payments :: p.customerId) + (set i | i in invoices :: i.customerId)
  }

  function Compute(payments: seq<Payment>, invoices: seq<Invoice>, customers: seq<Id>): Targets {
    var invoicesToEnqueue := InvoicesNotIn(invoices, CoveredInvoices(payments));
    Targets(CustomersNotIn(customers, CoveredCustomers(payments, invoicesToEnqueue)), invoicesToEnqueue, payments)
  }

  function CustomerJobs(customers: seq<Id>): (r: seq<Job>)
    ensures |r| == |customers|
    ensures forall k | 0 <= k < |r| :: r[k] == PushCustomer(customers[k], ReadC)
  {
    seq(|customers|, k requires 0 <= k < |customers| => PushCustomer(customers[k], ReadC))
  }

  function InvoiceJobs(invoices: seq<Invoice>): (r: seq<Job>)
    ensures |r| == |invoices|
    ensures forall k | 0 <= k < |r| :: r[k] == PushInvoice(invoices[k].id, ReadI)
  {
    seq(|invoices|, k requires 0 <= k < |invoices| => PushInvoice(invoices[k].id, ReadI))
  }

  function PaymentJobs(payments: seq<Payment>): (r: seq<Job>)
    ensures |r| == |payments|
    ensures forall k | 0 <= k < |r| :: r[k] == PushPayment(payments[k].id, ReadP)
  {
    seq(|payments|, k requires 0 <= k < |payments| => PushPayment(payments[k].id, ReadP))
  }

  function Jobs(t: Targets): (r: seq<Job>)
    ensures |r| == |t.customers| + |t.invoices| + |t.payments|
  {
    CustomerJobs(t.customers) + InvoiceJobs(t.invoices) + PaymentJobs(t.payments)
  }

  function JobAt(t: Targets, k: nat): Job
    requires k < |t.customers| + |t.invoices| + |t.payments|
  {
    var m, n := |t.customers|, |t.customers| + |t.invoices|;
    if k < m then PushCustomer(t.customers[k], ReadC)
    else if k < n then PushInvoice(t.invoices[k - m].id, ReadI)
    else PushPayment(t.payments[k - n].id, ReadP)
  }

  lemma JobsAt(t: Targets, k: nat)
    requires k < |Jobs(t)|
    ensures Jobs(t)[k] == JobAt(t, k)
  {
  }

  /**
   * What the three queries return: every record without a remote id, once each, with the
   * relations as stored. A stored invoice id implies a stored customer id, since an invoice is
   * pushed after its customer.
   */
  ghost predicate Queried(w: World, unsynced: set<Obj>, payments: seq<Payment>, invoices: seq<Invoice>, customers: seq<Id>) {
    && (forall p | p in payments :: P(p.id) in unsynced && p.invoiceId == w.invoiceOf(p.id) && p.customerId == w.customerOf(p.invoiceId))
    && (forall i | i in invoices :: I(i.id) in unsynced && i.customerId == w.customerOf(i.id))
    && (forall c | c in customers :: C(c) in unsynced)
    && (forall p | p in payments && I(p.invoiceId) in unsynced :: Invoice(p.invoiceId, p.customerId) in invoices)
    && (forall p | p in payments && C(p.customerId) in unsynced :: I(p.invoiceId) in unsynced)
    && (forall j, k | 0 <= j < k < |payments| :: payments[j].id != payments[k].id)
    && DistinctIds(invoices) && Distinct(customers)
  }

  ghost predicate DistinctIds(invoices: seq<Invoice>) {
    forall j, k | 0 <= j < k < |invoices| :: invoices[j].id != invoices[k].id
  }

  ghost predicate Distinct(ids: seq<Id>) {
    forall j, k | 0 <= j < k < |ids| :: ids[j] != ids[k]
  }

  /** The two shapes the exclusion rule does not cover. */
  ghost predicate NoSharedInvoice(unsynced: set<Obj>, payments: seq<Payment>) {
    forall j, k | 0 <= j < k < |payments| && payments[j].invoiceId == payments[k].invoiceId :: I(payments[j].invoiceId) !in unsynced
  }

  ghost predicate NoSharedCustomer(unsynced: set<Obj>, invoices: seq<Invoice>) {
    forall j, k | 0 <= j < k < |invoices| && invoices[j].customerId == invoices[k].customerId :: C(invoices[j].customerId) !in unsynced
  }

  // --- Distinctness survives the filters ---------------------------------------------------

  lemma {:induction false} FilteredDistinct(invoices: seq<Invoice>, covered: set<Id>)
    requires DistinctIds(invoices)
    ensures DistinctIds(InvoicesNotIn(invoices, covered))
  {
    if invoices != [] {
      var prefix, last := invoices[..|invoices| - 1], invoices[|invoices| - 1];
      FilteredDistinct(prefix, covered);
      var before := InvoicesNotIn(prefix, covered);
      forall j | 0 <= j < |before| ensures before[j].id != last.id {
        assert before[j] in before && before[j] in prefix;
      }
      assert DistinctIds(before + [last]);
    }
  }

  lemma {:induction false} FilteredCustomersDistinct(customers: seq<Id>, covered: set<Id>)
    requires Distinct(customers)
    ensures Distinct(CustomersNotIn(customers, covered))
  {
    if customers != [] {
      var prefix, last := customers[..|customers| - 1], customers[|customers| - 1];
      FilteredCustomersDistinct(prefix, covered);
      var before := CustomersNotIn(prefix, covered);
      forall j | 0 <= j < |before| ensures before[j] != last {
        assert before[j] in before && before[j] in prefix;
      }
      assert Distinct(before + [last]);
    }
  }

  // --- Disjoint exactly when neither shape occurs ------------------------------------------------

  /** Two invoices as listed that bill one unsynced customer are the same invoice. */
  lemma SameCustomerSameInvoice(unsynced: set<Obj>, invoices: seq<Invoice>, a: Invoice, b: Invoice)
    requires NoSharedCustomer(unsynced, invoices) && a in invoices && b in invoices
    requires a.customerId == b.customerId && C(a.customerId) in unsynced
    ensures a == b
  {
    var j :| 0 <= j < |invoices| && invoices[j] == a;
    var k :| 0 <= k < |invoices| && invoices[k] == b;
    if j < k { assert invoices[j].customerId == invoices[k].customerId; }
    if k < j { assert invoices[k].customerId == invoices[j].customerId; }
  }

  ghost predicate Apart(w: World, unsynced: set<Obj>, a: Job, b: Job) {
    Footprint(w, unsynced, a) !! Footprint(w, unsynced, b)
  }

  lemma PaymentsApart(w: World, unsynced: set<Obj>, payments: seq<Payment>, invoices: seq<Invoice>, customers: seq<Id>, j: nat, k: nat)
    requires Queried(w, unsynced, payments, invoices, customers)
    requires NoSharedInvoice(unsynced, payments) && NoSharedCustomer(unsynced, invoices) && j < k < |payments|
    ensures Apart(w, unsynced, PushPayment(payments[j].id, ReadP), PushPayment(payments[k].id, ReadP))
  {
    var a, b := payments[j], payments[k];
    assert a in payments && b in payments;
    if I(a.invoiceId) in unsynced && I(b.invoiceId) in unsynced && a.customerId == b.customerId && C(a.customerId) in unsynced {
      SameCustomerSameInvoice(unsynced, invoices, Invoice(a.invoiceId, a.customerId), Invoice(b.invoiceId, b.customerId));
    }
  }

  lemma InvoicePaymentApart(w: World, unsynced: set<Obj>, payments: seq<Payment>, invoices: seq<Invoice>, customers: seq<Id>, i: Invoice, p: Payment)
    requires Queried(w, unsynced, payments, invoices, customers) && NoSharedCustomer(unsynced, invoices)
    requires i in Compute(payments, invoices, customers).invoices && p in payments
    ensures Apart(w, unsynced, PushInvoice(i.id, ReadI), PushPayment(p.id, ReadP))
  {
    assert i in invoices && i.id != p.invoiceId;
    if I(p.invoiceId) in unsynced && i.customerId == p.customerId && C(i.customerId) in unsynced {
      SameCustomerSameInvoice(unsynced, invoices, i, Invoice(p.invoiceId, p.customerId));
    }
  }

  lemma InvoicesApart(w: World, unsynced: set<Obj>, payments: seq<Payment>, invoices: seq<Invoice>, customers: seq<Id>, r: seq<Invoice>, j: nat, k: nat)
    requires Queried(w, unsynced, payments, invoices, customers) && NoSharedCustomer(unsynced, invoices)
    requires r == Compute(payments, invoices, customers).invoices && j < k < |r|
    ensures Apart(w, unsynced, PushInvoice(r[j].id, ReadI), PushInvoice(r[k].id, ReadI))
  {
    assert r[j] in r && r[k] in r;
    FilteredDistinct(invoices, CoveredInvoices(payments));
    assert r[j].id != r[k].id;
    if r[j].customerId == r[k].customerId && C(r[j].customerId) in unsynced {
      SameCustomerSameInvoice(unsynced, invoices, r[j], r[k]);
    }
  }

  lemma CustomerApart(w: World, unsynced: set<Obj>, payments: seq<Payment>, invoices: seq<Invoice>, customers: seq<Id>, c: Id, other: Job)
    requires Queried(w, unsynced, payments, invoices, customers) && c in Compute(payments, invoices, customers).customers
    requires
      || (exists i :: i in Compute(payments, invoices, customers).invoices && other == PushInvoice(i.id, ReadI))
      || (exists p :: p in payments && other == PushPayment(p.id, ReadP))
    ensures Apart(w, unsynced, PushCustomer(c, ReadC), other)
  {
  }

  lemma TargetsDisjoint(w: World, unsynced: set<Obj>, payments: seq<Payment>, invoices: seq<Invoice>, customers: seq<Id>)
    requires Queried(w, unsynced, payments, invoices, customers)
    requires NoSharedInvoice(unsynced, payments) && NoSharedCustomer(unsynced, invoices)
    ensures Disjoint(w, unsynced, Jobs(Compute(payments, invoices, customers)))
  {
    var t := Compute(payments, invoices, customers);
    var jobs := Jobs(t);
    forall j, k | 0 <= j < k < |jobs| ensures Footprint(w, unsynced, jobs[j]) !! Footprint(w, unsynced, jobs[k]) {
      PairApart(w, unsynced, payments, invoices, customers, t, j, k);
      JobsAt(t, j);
      JobsAt(t, k);
    }
  }

  lemma PairApart(w: World, unsynced: set<Obj>, payments: seq<Payment>, invoices: seq<Invoice>, customers: seq<Id>, t: Targets, j: nat, k: nat)
    requires Queried(w, unsynced, payments, invoices, customers) && t == Compute(payments, invoices, customers)
    requires NoSharedInvoice(unsynced, payments) && NoSharedCustomer(unsynced, invoices)
    requires j < k < |t.customers| + |t.invoices| + |t.payments|
    ensures Apart(w, unsynced, JobAt(t, j), JobAt(t, k))
  {
    if j < |t.customers| {
      CustomerFirstApart(w, unsynced, payments, invoices, customers, t, j, k);
    } else if j < |t.customers| + |t.invoices| {
      InvoiceFirstApart(w, unsynced, payments, invoices, customers, t, j, k);
    } else {
      PaymentFirstApart(w, unsynced, payments, invoices, customers, t, j, k);
    }
  }

  lemma PaymentFirstApart(w: World, unsynced: set<Obj>, payments: seq<Payment>, invoices: seq<Invoice>, customers: seq<Id>, t: Targets, j: nat, k: nat)
    requires Queried(w, unsynced, payments, invoices, customers) && t.payments == payments
    requires NoSharedInvoice(unsynced, payments) && NoSharedCustomer(unsynced, invoices)
    requires |t.customers| + |t.invoices| <= j < k < |t.customers| + |t.invoices| + |t.payments|
    ensures Apart(w, unsynced, JobAt(t, j), JobAt(t, k))
  {
    var n := |t.customers| + |t.invoices|;
    var a, b := PushPayment(payments[j - n].id, ReadP), PushPayment(payments[k - n].id, ReadP);
    assert Apart(w, unsynced, a, b) by {
      PaymentsApart(w, unsynced, payments, invoices, customers, j - n, k - n);
    }
    assert JobAt(t, j) == a && JobAt(t, k) == b;
  }

  lemma InvoiceFirstApart(w: World, unsynced: set<Obj>, payments: seq<Payment>, invoices: seq<Invoice>, customers: seq<Id>, t: Targets, j: nat, k: nat)
    requires Queried(w, unsynced, payments, invoices, customers) && t == Compute(payments, invoices, customers)
    requires NoSharedCustomer(unsynced, invoices)
    requires |t.customers| <= j < |t.customers| + |t.invoices| && j < k < |t.customers| + |t.invoices| + |t.payments|
    ensures Apart(w, unsynced, JobAt(t, j), JobAt(t, k))
  {
    var m, n := |t.customers|, |t.customers| + |t.invoices|;
    if k < n {
      InvoicesApart(w, unsynced, payments, invoices, customers, t.invoices, j - m, k - m);
    } else {
      assert t.invoices[j - m] in t.invoices && payments[k - n] in payments;
      InvoicePaymentApart(w, unsynced, payments, invoices, customers, t.invoices[j - m], payments[k - n]);
    }
  }

  lemma CustomerFirstApart(w: World, unsynced: set<Obj>, payments: seq<Payment>, invoices: seq<Invoice>, customers: seq<Id>, t: Targets, j: nat, k: nat)
    requires Queried(w, unsynced, payments, invoices, customers) && t == Compute(payments, invoices, customers)
    requires j < |t.customers| && j < k < |t.customers| + |t.invoices| + |t.payments|
    ensures Apart(w, unsynced, JobAt(t, j), JobAt(t, k))
  {
    var m, n := |t.customers|, |t.customers| + |t.invoices|;
    if k < m {
      FilteredCustomersDistinct(customers, CoveredCustomers(payments, t.invoices));
      assert t.customers[j] != t.customers[k];
    } else {
      assert t.customers[j] in t.customers;
      if k < n { assert t.invoices[k - m] in t.invoices; } else { assert payments[k - n] in payments; }
      CustomerApart(w, unsynced, payments, invoices, customers, t.customers[j], JobAt(t, k));
    }
  }

  lemma PaymentJobPushes(w: World, unsynced: set<Obj>, t: Targets, at: nat)
    requires at < |t.payments| && I(w.invoiceOf(t.payments[at].id)) in unsynced
    ensures var k := |t.customers| + |t.invoices| + at; var i := w.invoiceOf(t.payments[at].id);
      InvoiceFootprint(w, unsynced, i) <= Footprint(w, unsynced, Jobs(t)[k]) && Pushes(w, Jobs(t)[k], i)
  {
    JobsAt(t, |t.customers| + |t.invoices| + at);
  }

  lemma InvoiceJobPushes(w: World, unsynced: set<Obj>, t: Targets, at: nat)
    requires at < |t.invoices|
    ensures var k := |t.customers| + at; var i := t.invoices[at].id;
      InvoiceFootprint(w, unsynced, i) <= Footprint(w, unsynced, Jobs(t)[k]) && Pushes(w, Jobs(t)[k], i)
  {
    JobsAt(t, |t.customers| + at);
  }

  /** The job that pushes an invoice: its first payment's, or its own. */
  lemma InvoiceHasJob(w: World, unsynced: set<Obj>, payments: seq<Payment>, invoices: seq<Invoice>, customers: seq<Id>, i: Invoice) returns (k: nat)
    requires Queried(w, unsynced, payments, invoices, customers) && i in invoices
    ensures var jobs := Jobs(Compute(payments, invoices, customers));
      && k < |jobs| && InvoiceFootprint(w, unsynced, i.id) <= Footprint(w, unsynced, jobs[k]) && Pushes(w, jobs[k], i.id)
  {
    var t := Compute(payments, invoices, customers);
    assert t.payments == payments;
    if i.id in CoveredInvoices(payments) {
      var at :| 0 <= at < |payments| && payments[at].invoiceId == i.id;
      assert payments[at] in payments;
      k := |t.customers| + |t.invoices| + at;
      PaymentJobPushes(w, unsynced, t, at);
    } else {
      assert i in t.invoices;
      var at :| 0 <= at < |t.invoices| && t.invoices[at] == i;
      k := |t.customers| + at;
      InvoiceJobPushes(w, unsynced, t, at);
    }
  }

  /** The job's own invoice, or the invoice its payment settles. */
  predicate Pushes(w: World, job: Job, i: Id) {
    (job.PushInvoice? && job.id == i) || (job.PushPayment? && w.invoiceOf(job.id) == i)
  }

  lemma DisjointForbidsSharing(w: World, unsynced: set<Obj>, payments: seq<Payment>, invoices: seq<Invoice>, customers: seq<Id>)
    requires Queried(w, unsynced, payments, invoices, customers)
    requires Disjoint(w, unsynced, Jobs(Compute(payments, invoices, customers)))
    ensures NoSharedInvoice(unsynced, payments) && NoSharedCustomer(unsynced, invoices)
  {
    SharedInvoiceMeets(w, unsynced, payments, invoices, customers);
    SharedCustomerMeets(w, unsynced, payments, invoices, customers);
  }

  lemma SharedInvoiceMeets(w: World, unsynced: set<Obj>, payments: seq<Payment>, invoices: seq<Invoice>, customers: seq<Id>)
    requires Queried(w, unsynced, payments, invoices, customers)
    requires Disjoint(w, unsynced, Jobs(Compute(payments, invoices, customers)))
    ensures NoSharedInvoice(unsynced, payments)
  {
    var t := Compute(payments, invoices, customers);
    forall j, k | 0 <= j < k < |payments| && payments[j].invoiceId == payments[k].invoiceId
      ensures I(payments[j].invoiceId) !in unsynced
    {
      assert payments[j] in payments && payments[k] in payments;
      PaymentsMeet(w, unsynced, t, j, k);
    }
  }

  /** The jobs of two payments on one unsynced invoice meet on that invoice. */
  lemma PaymentsMeet(w: World, unsynced: set<Obj>, t: Targets, j: nat, k: nat)
    requires Disjoint(w, unsynced, Jobs(t)) && j < k < |t.payments|
    requires w.invoiceOf(t.payments[j].id) == w.invoiceOf(t.payments[k].id)
    ensures I(w.invoiceOf(t.payments[j].id)) !in unsynced
  {
    var n := |t.customers| + |t.invoices|;
    JobsAt(t, n + j);
    JobsAt(t, n + k);
    assert Footprint(w, unsynced, Jobs(t)[n + j]) !! Footprint(w, unsynced, Jobs(t)[n + k]);
  }

  lemma SharedCustomerMeets(w: World, unsynced: set<Obj>, payments: seq<Payment>, invoices: seq<Invoice>, customers: seq<Id>)
    requires Queried(w, unsynced, payments, invoices, customers)
    requires Disjoint(w, unsynced, Jobs(Compute(payments, invoices, customers)))
    ensures NoSharedCustomer(unsynced, invoices)
  {
    var jobs := Jobs(Compute(payments, invoices, customers));
    forall j, k | 0 <= j < k < |invoices| && invoices[j].customerId == invoices[k].customerId
      ensures C(invoices[j].customerId) !in unsynced
    {
      assert invoices[j] in invoices && invoices[k] in invoices;
      var a := InvoiceHasJob(w, unsynced, payments, invoices, customers, invoices[j]);
      var b := InvoiceHasJob(w, unsynced, payments, invoices, customers, invoices[k]);
      MeetOnce(w, unsynced, jobs, a, b, invoices[j], invoices[k]);
    }
  }

  /** Two jobs pushing different invoices of one unsynced customer meet on that customer. */
  lemma MeetOnce(w: World, unsynced: set<Obj>, jobs: seq<Job>, a: nat, b: nat, i: Invoice, j: Invoice)
    requires Disjoint(w, unsynced, jobs) && a < |jobs| && b < |jobs|
    requires Pushes(w, jobs[a], i.id) && Pushes(w, jobs[b], j.id) && i.id != j.id
    requires w.customerOf(i.id) == w.customerOf(j.id) == i.customerId
    requires InvoiceFootprint(w, unsynced, i.id) <= Footprint(w, unsynced, jobs[a])
    requires InvoiceFootprint(w, unsynced, j.id) <= Footprint(w, unsynced, jobs[b])
    ensures C(i.customerId) !in unsynced
  {
    assert a != b;
    assert if a < b then Footprint(w, unsynced, jobs[a]) !! Footprint(w, unsynced, jobs[b])
           else Footprint(w, unsynced, jobs[b]) !! Footprint(w, unsynced, jobs[a]);
  }

  // --- The backfill -----------------------------------------------------------------------------------

  function Begin(synced: set<Obj>, t: Targets): State {
    State(synced, multiset{}, Jobs(t))
  }

  /** Whatever the queries did not find unsynced has its remote id. */
  ghost predicate Known(unsynced: set<Obj>, synced: set<Obj>, payments: seq<Payment>, invoices: seq<Invoice>) {
    && synced !! unsynced
    && (forall i | i in invoices :: C(i.customerId) in unsynced || C(i.customerId) in synced)
    && (forall p | p in payments && I(p.invoiceId) !in unsynced :: I(p.invoiceId) in synced && C(p.customerId) in synced)
  }

  lemma BeginStarts(w: World, unsynced: set<Obj>, synced: set<Obj>, payments: seq<Payment>, invoices: seq<Invoice>, customers: seq<Id>)
    requires Queried(w, unsynced, payments, invoices, customers) && Known(unsynced, synced, payments, invoices)
    ensures Start(w, unsynced, Begin(synced, Compute(payments, invoices, customers)))
  {
    var t := Compute(payments, invoices, customers);
    var jobs, m, n := Jobs(t), |t.customers|, |t.customers| + |t.invoices|;
    forall k | 0 <= k < |jobs| ensures AtStart(w, unsynced, synced, jobs[k]) {
      JobsAt(t, k);
      if k < m { assert t.customers[k] in t.customers; }
      else if k < n { assert t.invoices[k - m] in t.invoices; }
      else {
        var p := payments[k - n];
        assert p in payments;
        if I(p.invoiceId) in unsynced { assert Invoice(p.invoiceId, p.customerId) in invoices; }
      }
    }
  }

  lemma PaymentCovered(w: World, unsynced: set<Obj>, t: Targets, p: Payment)
    requires p in t.payments
    ensures InSome(w, unsynced, Jobs(t), P(p.id))
  {
    var n := |t.customers| + |t.invoices|;
    var at :| 0 <= at < |t.payments| && t.payments[at] == p;
    JobsAt(t, n + at);
    assert P(p.id) in Footprint(w, unsynced, Jobs(t)[n + at]);
  }

  /** Every input record is in some job's footprint. */
  lemma EverythingCovered(w: World, unsynced: set<Obj>, payments: seq<Payment>, invoices: seq<Invoice>, customers: seq<Id>)
    requires Queried(w, unsynced, payments, invoices, customers)
    ensures var jobs := Jobs(Compute(payments, invoices, customers));
      && (forall p | p in payments :: InSome(w, unsynced, jobs, P(p.id)))
      && (forall i | i in invoices :: InSome(w, unsynced, jobs, I(i.id)))
      && (forall c | c in customers :: InSome(w, unsynced, jobs, C(c)))
  {
    var t := Compute(payments, invoices, customers);
    var jobs := Jobs(t);
    forall p | p in payments ensures InSome(w, unsynced, jobs, P(p.id)) {
      PaymentCovered(w, unsynced, t, p);
    }
    forall i | i in invoices ensures InSome(w, unsynced, jobs, I(i.id)) {
      var k := InvoiceHasJob(w, unsynced, payments, invoices, customers, i);
      assert I(i.id) in InvoiceFootprint(w, unsynced, i.id);
      assert I(i.id) in Footprint(w, unsynced, jobs[k]);
    }
    forall c | c in customers ensures InSome(w, unsynced, jobs, C(c)) {
      CustomerCovered(w, unsynced, payments, invoices, customers, c);
    }
  }

  lemma CustomerCovered(w: World, unsynced: set<Obj>, payments: seq<Payment>, invoices: seq<Invoice>, customers: seq<Id>, c: Id)
    requires Queried(w, unsynced, payments, invoices, customers) && c in customers
    ensures InSome(w, unsynced, Jobs(Compute(payments, invoices, customers)), C(c))
  {
    var t := Compute(payments, invoices, customers);
    var jobs := Jobs(t);
    if c in t.customers {
      var at :| 0 <= at < |t.customers| && t.customers[at] == c;
      JobsAt(t, at);
      assert C(c) in Footprint(w, unsynced, jobs[at]);
    } else {
      var i: Invoice :| i in invoices && i.customerId == c by {
        if exists p :: p in payments && p.customerId == c {
          var p :| p in payments && p.customerId == c;
          assert Invoice(p.invoiceId, p.customerId) in invoices;
        }
      }
      var k := InvoiceHasJob(w, unsynced, payments, invoices, customers, i);
      assert C(c) in InvoiceFootprint(w, unsynced, i.id);
      assert C(c) in Footprint(w, unsynced, jobs[k]);
    }
  }

  /**
   * The backfill creates nothing twice under any schedule exactly when no two unsynced payments
   * share an unsynced invoice and no two unsynced invoices share an unsynced customer.
   */
  lemma ExactlyOnceIff(w: World, unsynced: set<Obj>, synced: set<Obj>, payments: seq<Payment>, invoices: seq<Invoice>, customers: seq<Id>)
    requires Queried(w, unsynced, payments, invoices, customers) && Known(unsynced, synced, payments, invoices)
    ensures (forall schedule, o :: Run(w, Begin(synced, Compute(payments, invoices, customers)), schedule).created[o] <= 1)
       <==> NoSharedInvoice(unsynced, payments) && NoSharedCustomer(unsynced, invoices)
  {
    var s := Begin(synced, Compute(payments, invoices, customers));
    BeginStarts(w, unsynced, synced, payments, invoices, customers);
    CreatedOnceIffDisjoint(w, unsynced, s);
    if NoSharedInvoice(unsynced, payments) && NoSharedCustomer(unsynced, invoices) {
      TargetsDisjoint(w, unsynced, payments, invoices, customers);
    }
    if Disjoint(w, unsynced, s.jobs) {
      DisjointForbidsSharing(w, unsynced, payments, invoices, customers);
    }
  }

  /** Then, once every job has finished, each input record has its remote id and was created exactly once. */
  lemma BackfillCompletes(w: World, unsynced: set<Obj>, synced: set<Obj>, payments: seq<Payment>, invoices: seq<Invoice>, customers: seq<Id>,
    schedule: seq<nat>, o: Obj)
    requires Queried(w, unsynced, payments, invoices, customers) && Known(unsynced, synced, payments, invoices)
    requires NoSharedInvoice(unsynced, payments) && NoSharedCustomer(unsynced, invoices)
    requires
      || (exists p :: p in payments && o == P(p.id))
      || (exists i :: i in invoices && o == I(i.id))
      || (exists c :: c in customers && o == C(c))
    ensures var t := Run(w, Begin(synced, Compute(payments, invoices, customers)), schedule);
      && (forall k | 0 <= k < |t.jobs| :: !Failed(t.jobs[k]))
      && ((forall k | 0 <= k < |t.jobs| :: Finished(t.jobs[k])) ==> o in t.synced && t.created[o] == 1)
  {
    var s := Begin(synced, Compute(payments, invoices, customers));
    BeginStarts(w, unsynced, synced, payments, invoices, customers);
    TargetsDisjoint(w, unsynced, payments, invoices, customers);
    EverythingCovered(w, unsynced, payments, invoices, customers);
    DisjointJobsCreateOnce(w, unsynced, s, schedule, o);
  }
}
