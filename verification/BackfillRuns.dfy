/**
 * The push jobs of a backfill, running at once. Each push checks whether a remote id is stored,
 * creates the record in Zoho if not, and stores the id, in separate steps; a payment cascades to
 * its invoice and an invoice to its customer. Sync is on, validation passes, Zoho answers.
 */
module BackfillRuns {
  type Id = nat

  datatype Obj = C(id: Id) | I(id: Id) | P(id: Id)

  /** Which invoice a payment settles, and which customer an invoice bills. */
  datatype World = World(invoiceOf: Id -> Id, customerOf: Id -> Id)

  /** Between a push's steps; `known` is the remote id's presence as it was read. */
  datatype CustomerPc = ReadC | RemoteC(known: bool) | StoreC | DoneC
  datatype InvoicePc =
    | ReadI | InCustomer(customer: CustomerPc, known: bool) | RecheckI(known: bool) | RemoteI(known: bool)
    | StoreI | DoneI | FailedI
  datatype PaymentPc =
    | ReadP | InInvoice(invoice: InvoicePc) | RecheckP | RemoteP | StoreP | DoneP | FailedP

  datatype Job =
    | PushCustomer(id: Id, cpc: CustomerPc)
    | PushInvoice(id: Id, ipc: InvoicePc)
    | PushPayment(id: Id, ppc: PaymentPc)

  /** The records with a stored remote id, every creation Zoho has seen, and the jobs. */
  datatype State = State(synced: set<Obj>, created: multiset<Obj>, jobs: seq<Job>)

  datatype Books = Books(synced: set<Obj>, created: multiset<Obj>)

  function Create(b: Books, o: Obj): Books {
    b.(created := b.created + multiset{o})
  }

  function Store(b: Books, o: Obj): Books {
    b.(synced := b.synced + {o})
  }

  function StepC(b: Books, c: Id, pc: CustomerPc): (Books, CustomerPc) {
    match pc
    case ReadC => (b, RemoteC(C(c) in b.synced))
    case RemoteC(known) => (if known then b else Create(b, C(c)), StoreC)
    case StoreC => (Store(b, C(c)), DoneC)
    case DoneC => (b, DoneC)
  }

  function StepI(w: World, b: Books, i: Id, pc: InvoicePc): (Books, InvoicePc) {
    var c := w.customerOf(i);
    match pc
    case ReadI =>
      (b, if C(c) in b.synced then RecheckI(I(i) in b.synced) else InCustomer(ReadC, I(i) in b.synced))
    case InCustomer(DoneC, known) => (b, RecheckI(known))
    case InCustomer(cpc, known) =>
      var (after, next) := StepC(b, c, cpc);
      (after, InCustomer(next, known))
    case RecheckI(known) => (b, if C(c) in b.synced then RemoteI(known) else FailedI)
    case RemoteI(known) => (if known then b else Create(b, I(i)), StoreI)
    case StoreI => (Store(b, I(i)), DoneI)
    case DoneI => (b, DoneI)
    case FailedI => (b, FailedI)
  }

  function StepP(w: World, b: Books, p: Id, pc: PaymentPc): (Books, PaymentPc) {
    var i := w.invoiceOf(p);
    match pc
    case ReadP => (b, if I(i) in b.synced then RecheckP else InInvoice(ReadI))
    case InInvoice(DoneI) => (b, RecheckP)
    case InInvoice(FailedI) => (b, FailedP)
    case InInvoice(ipc) =>
      var (after, next) := StepI(w, b, i, ipc);
      (after, InInvoice(next))
    case RecheckP => (b, if I(i) in b.synced && C(w.customerOf(i)) in b.synced then RemoteP else FailedP)
    case RemoteP => (Create(b, P(p)), StoreP) // a payment is always posted, whatever id is stored
    case StoreP => (Store(b, P(p)), DoneP)
    case DoneP => (b, DoneP)
    case FailedP => (b, FailedP)
  }

  function StepJob(w: World, b: Books, job: Job): (Books, Job) {
    match job
    case PushCustomer(c, pc) => var (after, next) := StepC(b, c, pc); (after, PushCustomer(c, next))
    case PushInvoice(i, pc) => var (after, next) := StepI(w, b, i, pc); (after, PushInvoice(i, next))
    case PushPayment(p, pc) => var (after, next) := StepP(w, b, p, pc); (after, PushPayment(p, next))
  }

  /** The scheduler lets job k take one step. */
  function Next(w: World, s: State, k: nat): State {
    if k >= |s.jobs| then s
    else
      var (after, job) := StepJob(w, Books(s.synced, s.created), s.jobs[k]);
      State(after.synced, after.created, s.jobs[k := job])
  }

  function Run(w: World, s: State, schedule: seq<nat>): State {
    if schedule == [] then s else Next(w, Run(w, s, schedule[..|schedule| - 1]), schedule[|schedule| - 1])
  }

  predicate Finished(job: Job) {
    match job
    case PushCustomer(_, pc) => pc.DoneC?
    case PushInvoice(_, pc) => pc.DoneI?
    case PushPayment(_, pc) => pc.DoneP?
  }

  // --- Footprints -------------------------------------------------------------------------

  /** What a job creates when `unsynced` are the records without a remote id. */
  function InvoiceFootprint(w: World, unsynced: set<Obj>, i: Id): set<Obj> {
    {I(i)} + (if C(w.customerOf(i)) in unsynced then {C(w.customerOf(i))} else {})
  }

  function Footprint(w: World, unsynced: set<Obj>, job: Job): set<Obj> {
    match job
    case PushCustomer(c, _) => {C(c)}
    case PushInvoice(i, _) => InvoiceFootprint(w, unsynced, i)
    case PushPayment(p, _) =>
      {P(p)} + (if I(w.invoiceOf(p)) in unsynced then InvoiceFootprint(w, unsynced, w.invoiceOf(p)) else {})
  }

  ghost predicate Disjoint(w: World, unsynced: set<Obj>, jobs: seq<Job>) {
    forall j, k | 0 <= j < k < |jobs| :: Footprint(w, unsynced, jobs[j]) !! Footprint(w, unsynced, jobs[k])
  }

  // --- What a job has done, at each of its steps ----------------------------------------------

  predicate Untouched(b: Books, o: Obj) {
    o !in b.synced && b.created[o] == 0
  }

  predicate Made(b: Books, o: Obj) {
    o !in b.synced && b.created[o] == 1
  }

  predicate Complete(b: Books, o: Obj) {
    o in b.synced && b.created[o] == 1
  }

  predicate OkC(b: Books, c: Id, pc: CustomerPc) {
    match pc
    case ReadC => Untouched(b, C(c))
    case RemoteC(known) => !known && Untouched(b, C(c))
    case StoreC => Made(b, C(c))
    case DoneC => Complete(b, C(c))
  }

  /** The customer is this job's to create and is at `pc`, or had its id from the start. */
  predicate CustomerAt(w: World, unsynced: set<Obj>, b: Books, i: Id, pc: CustomerPc) {
    if C(w.customerOf(i)) in unsynced then OkC(b, w.customerOf(i), pc) else C(w.customerOf(i)) in b.synced
  }

  predicate OkI(w: World, unsynced: set<Obj>, b: Books, i: Id, pc: InvoicePc) {
    match pc
    case ReadI => Untouched(b, I(i)) && CustomerAt(w, unsynced, b, i, ReadC)
    case InCustomer(cpc, known) =>
      !known && Untouched(b, I(i)) && C(w.customerOf(i)) in unsynced && OkC(b, w.customerOf(i), cpc)
    case RecheckI(known) => !known && Untouched(b, I(i)) && CustomerAt(w, unsynced, b, i, DoneC)
    case RemoteI(known) => !known && Untouched(b, I(i)) && CustomerAt(w, unsynced, b, i, DoneC)
    case StoreI => Made(b, I(i)) && CustomerAt(w, unsynced, b, i, DoneC)
    case DoneI => Complete(b, I(i)) && CustomerAt(w, unsynced, b, i, DoneC)
    case FailedI => false
  }

  predicate InvoiceAt(w: World, unsynced: set<Obj>, b: Books, p: Id, pc: InvoicePc) {
    var i := w.invoiceOf(p);
    if I(i) in unsynced then OkI(w, unsynced, b, i, pc)
    else I(i) in b.synced && C(w.customerOf(i)) in b.synced && C(w.customerOf(i)) !in unsynced
  }

  predicate OkP(w: World, unsynced: set<Obj>, b: Books, p: Id, pc: PaymentPc) {
    match pc
    case ReadP => Untouched(b, P(p)) && InvoiceAt(w, unsynced, b, p, ReadI)
    case InInvoice(ipc) => Untouched(b, P(p)) && I(w.invoiceOf(p)) in unsynced && OkI(w, unsynced, b, w.invoiceOf(p), ipc)
    case RecheckP => Untouched(b, P(p)) && InvoiceAt(w, unsynced, b, p, DoneI)
    case RemoteP => Untouched(b, P(p)) && InvoiceAt(w, unsynced, b, p, DoneI)
    case StoreP => Made(b, P(p)) && InvoiceAt(w, unsynced, b, p, DoneI)
    case DoneP => Complete(b, P(p)) && InvoiceAt(w, unsynced, b, p, DoneI)
    case FailedP => false
  }

  predicate Ok(w: World, unsynced: set<Obj>, b: Books, job: Job) {
    match job
    case PushCustomer(c, pc) => OkC(b, c, pc)
    case PushInvoice(i, pc) => OkI(w, unsynced, b, i, pc)
    case PushPayment(p, pc) => OkP(w, unsynced, b, p, pc)
  }

  /** Two books agree on some records, and no id is ever lost. */
  ghost predicate Agree(a: Books, b: Books, on: set<Obj>) {
    && (forall o | o in on :: (o in a.synced <==> o in b.synced) && a.created[o] == b.created[o])
    && a.synced <= b.synced
  }

  /** A step keeps its own job on track and touches only its own footprint. */
  lemma StepOk(w: World, unsynced: set<Obj>, b: Books, job: Job, others: set<Obj>)
    requires Ok(w, unsynced, b, job) && others !! Footprint(w, unsynced, job)
    ensures var (after, next) := StepJob(w, b, job);
      && Ok(w, unsynced, after, next)
      && Footprint(w, unsynced, next) == Footprint(w, unsynced, job)
      && Agree(b, after, others)
  {
    match job
    case PushCustomer(c, pc) => StepCOk(b, c, pc, others);
    case PushInvoice(i, pc) => StepIOk(w, unsynced, b, i, pc, others);
    case PushPayment(p, pc) => StepPOk(w, unsynced, b, p, pc, others);
  }

  lemma StepCOk(b: Books, c: Id, pc: CustomerPc, others: set<Obj>)
    requires OkC(b, c, pc) && C(c) !in others
    ensures var (after, next) := StepC(b, c, pc);
      && OkC(after, c, next) && Agree(b, after, others)
      && (forall o | o != C(c) :: (o in b.synced <==> o in after.synced) && b.created[o] == after.created[o])
  {
  }

  lemma StepIOk(w: World, unsynced: set<Obj>, b: Books, i: Id, pc: InvoicePc, others: set<Obj>)
    requires OkI(w, unsynced, b, i, pc) && others !! InvoiceFootprint(w, unsynced, i)
    ensures var (after, next) := StepI(w, b, i, pc);
      && OkI(w, unsynced, after, i, next) && Agree(b, after, others)
      && (forall o | o !in InvoiceFootprint(w, unsynced, i) :: (o in b.synced <==> o in after.synced) && b.created[o] == after.created[o])
  {
    if pc.InCustomer? {
      StepCOk(b, w.customerOf(i), pc.customer, others);
    }
  }

  lemma StepPOk(w: World, unsynced: set<Obj>, b: Books, p: Id, pc: PaymentPc, others: set<Obj>)
    requires OkP(w, unsynced, b, p, pc) && others !! Footprint(w, unsynced, PushPayment(p, pc))
    ensures var (after, next) := StepP(w, b, p, pc); OkP(w, unsynced, after, p, next) && Agree(b, after, others)
  {
    if pc.InInvoice? {
      StepIOk(w, unsynced, b, w.invoiceOf(p), pc.invoice, others);
    }
  }

  /** A job is undisturbed by whatever stays out of its footprint. */
  lemma OthersOk(w: World, unsynced: set<Obj>, a: Books, b: Books, job: Job)
    requires Ok(w, unsynced, a, job) && Agree(a, b, Footprint(w, unsynced, job))
    ensures Ok(w, unsynced, b, job)
  {
    match job
    case PushCustomer(c, pc) =>
    case PushInvoice(i, pc) => OtherInvoiceOk(w, unsynced, a, b, i, pc);
    case PushPayment(p, pc) => OtherPaymentOk(w, unsynced, a, b, p, pc);
  }

  lemma OtherInvoiceOk(w: World, unsynced: set<Obj>, a: Books, b: Books, i: Id, pc: InvoicePc)
    requires OkI(w, unsynced, a, i, pc) && Agree(a, b, InvoiceFootprint(w, unsynced, i))
    ensures OkI(w, unsynced, b, i, pc)
  {
    assert I(i) in InvoiceFootprint(w, unsynced, i);
    assert C(w.customerOf(i)) in unsynced ==> C(w.customerOf(i)) in InvoiceFootprint(w, unsynced, i);
  }

  lemma OtherPaymentOk(w: World, unsynced: set<Obj>, a: Books, b: Books, p: Id, pc: PaymentPc)
    requires OkP(w, unsynced, a, p, pc) && Agree(a, b, Footprint(w, unsynced, PushPayment(p, pc)))
    ensures OkP(w, unsynced, b, p, pc)
  {
    assert P(p) in Footprint(w, unsynced, PushPayment(p, pc));
    if I(w.invoiceOf(p)) in unsynced && !pc.FailedP? {
      var ipc := if pc.InInvoice? then pc.invoice else if pc.ReadP? then ReadI else DoneI;
      OtherInvoiceOk(w, unsynced, a, b, w.invoiceOf(p), ipc);
    }
  }

  // --- Whole runs ----------------------------------------------------------------------------

  /** Every job on track, footprints apart, and nothing created outside them. */
  ghost predicate Inv(w: World, unsynced: set<Obj>, s: State) {
    && Disjoint(w, unsynced, s.jobs)
    && (forall k | 0 <= k < |s.jobs| :: Ok(w, unsynced, Books(s.synced, s.created), s.jobs[k]))
    && (forall o | s.created[o] > 0 :: InSome(w, unsynced, s.jobs, o))
  }

  ghost predicate InSome(w: World, unsynced: set<Obj>, jobs: seq<Job>, o: Obj) {
    exists k :: 0 <= k < |jobs| && o in Footprint(w, unsynced, jobs[k])
  }

  lemma StepCreates(w: World, unsynced: set<Obj>, b: Books, job: Job, o: Obj)
    requires Ok(w, unsynced, b, job) && o !in Footprint(w, unsynced, job)
    ensures StepJob(w, b, job).0.created[o] == b.created[o]
  {
    StepOk(w, unsynced, b, job, {o});
  }

  lemma StepKeeps(w: World, unsynced: set<Obj>, s: State, k: nat)
    requires Inv(w, unsynced, s)
    ensures Inv(w, unsynced, Next(w, s, k)) && |Next(w, s, k).jobs| == |s.jobs|
    ensures forall j | 0 <= j < |s.jobs| :: Footprint(w, unsynced, Next(w, s, k).jobs[j]) == Footprint(w, unsynced, s.jobs[j])
  {
    if k < |s.jobs| {
      var b, t := Books(s.synced, s.created), Next(w, s, k);
      var after := Books(t.synced, t.created);
      StepOk(w, unsynced, b, s.jobs[k], {});
      forall j | 0 <= j < |s.jobs| && j != k ensures Ok(w, unsynced, after, t.jobs[j]) {
        StepOk(w, unsynced, b, s.jobs[k], Footprint(w, unsynced, s.jobs[j]));
        OthersOk(w, unsynced, b, after, s.jobs[j]);
      }
      CreationsInside(w, unsynced, s, k);
    }
  }

  lemma CreationsInside(w: World, unsynced: set<Obj>, s: State, k: nat)
    requires k < |s.jobs| && Ok(w, unsynced, Books(s.synced, s.created), s.jobs[k])
    requires forall o | s.created[o] > 0 :: InSome(w, unsynced, s.jobs, o)
    ensures forall o | Next(w, s, k).created[o] > 0 :: InSome(w, unsynced, Next(w, s, k).jobs, o)
  {
    var b, t := Books(s.synced, s.created), Next(w, s, k);
    StepOk(w, unsynced, b, s.jobs[k], {});
    forall o | t.created[o] > 0 ensures InSome(w, unsynced, t.jobs, o) {
      if o in Footprint(w, unsynced, s.jobs[k]) {
        assert o in Footprint(w, unsynced, t.jobs[k]);
      } else {
        StepCreates(w, unsynced, b, s.jobs[k], o);
        var j :| 0 <= j < |s.jobs| && o in Footprint(w, unsynced, s.jobs[j]);
        assert o in Footprint(w, unsynced, t.jobs[j]);
      }
    }
  }

  lemma {:induction false} RunKeeps(w: World, unsynced: set<Obj>, s: State, schedule: seq<nat>)
    requires Inv(w, unsynced, s)
    ensures var t := Run(w, s, schedule);
      && Inv(w, unsynced, t) && |t.jobs| == |s.jobs|
      && forall j | 0 <= j < |s.jobs| :: Footprint(w, unsynced, t.jobs[j]) == Footprint(w, unsynced, s.jobs[j])
  {
    if schedule != [] {
      var before := schedule[..|schedule| - 1];
      RunKeeps(w, unsynced, s, before);
      StepKeeps(w, unsynced, Run(w, s, before), schedule[|schedule| - 1]);
    }
  }

  lemma FinishedMeans(w: World, unsynced: set<Obj>, b: Books, job: Job, o: Obj)
    requires Ok(w, unsynced, b, job) && Finished(job) && o in Footprint(w, unsynced, job)
    ensures Complete(b, o)
  {
  }

  /** The jobs at their first step, over records of which `unsynced` have no remote id. */
  ghost predicate Start(w: World, unsynced: set<Obj>, s: State) {
    && s.created == multiset{} && s.synced !! unsynced
    && forall k | 0 <= k < |s.jobs| :: AtStart(w, unsynced, s.synced, s.jobs[k])
  }

  lemma StartInv(w: World, unsynced: set<Obj>, s: State)
    requires Start(w, unsynced, s) && Disjoint(w, unsynced, s.jobs)
    ensures Inv(w, unsynced, s)
  {
  }

  /** With disjoint footprints, whatever the schedule: nothing is created twice, no job fails, and at the end all is created and stored. */
  lemma DisjointJobsCreateOnce(w: World, unsynced: set<Obj>, s: State, schedule: seq<nat>, o: Obj)
    requires Start(w, unsynced, s) && Disjoint(w, unsynced, s.jobs)
    ensures var t := Run(w, s, schedule);
      && t.created[o] <= 1
      && (t.created[o] > 0 ==> InSome(w, unsynced, s.jobs, o))
      && (forall k | 0 <= k < |t.jobs| :: !Failed(t.jobs[k]))
      && ((forall k | 0 <= k < |t.jobs| :: Finished(t.jobs[k])) && InSome(w, unsynced, s.jobs, o) ==> o in t.synced && t.created[o] == 1)
  {
    StartInv(w, unsynced, s);
    RunKeeps(w, unsynced, s, schedule);
    EndState(w, unsynced, s, Run(w, s, schedule), o);
  }

  predicate Failed(job: Job) {
    (job.PushInvoice? && job.ipc.FailedI?) || (job.PushPayment? && job.ppc.FailedP?)
  }

  lemma NoFailure(w: World, unsynced: set<Obj>, t: State)
    requires Inv(w, unsynced, t)
    ensures forall k | 0 <= k < |t.jobs| :: !Failed(t.jobs[k])
  {
    forall k | 0 <= k < |t.jobs| ensures !Failed(t.jobs[k]) {
      assert Ok(w, unsynced, Books(t.synced, t.created), t.jobs[k]);
    }
  }

  lemma OwnedState(w: World, unsynced: set<Obj>, t: State, k: nat, o: Obj)
    requires Inv(w, unsynced, t) && k < |t.jobs| && o in Footprint(w, unsynced, t.jobs[k])
    ensures t.created[o] <= 1
    ensures Finished(t.jobs[k]) ==> o in t.synced && t.created[o] == 1
  {
    var b := Books(t.synced, t.created);
    OwnedOnce(w, unsynced, b, t.jobs[k], o);
    if Finished(t.jobs[k]) { FinishedMeans(w, unsynced, b, t.jobs[k], o); }
  }

  lemma EndState(w: World, unsynced: set<Obj>, s: State, t: State, o: Obj)
    requires Inv(w, unsynced, t) && |t.jobs| == |s.jobs|
    requires forall j | 0 <= j < |s.jobs| :: Footprint(w, unsynced, t.jobs[j]) == Footprint(w, unsynced, s.jobs[j])
    ensures t.created[o] <= 1 && (t.created[o] > 0 ==> InSome(w, unsynced, s.jobs, o))
    ensures forall k | 0 <= k < |t.jobs| :: !Failed(t.jobs[k])
    ensures (forall k | 0 <= k < |t.jobs| :: Finished(t.jobs[k])) && InSome(w, unsynced, s.jobs, o) ==> o in t.synced && t.created[o] == 1
  {
    NoFailure(w, unsynced, t);
    if InSome(w, unsynced, t.jobs, o) {
      var k :| 0 <= k < |t.jobs| && o in Footprint(w, unsynced, t.jobs[k]);
      assert o in Footprint(w, unsynced, s.jobs[k]);
      OwnedState(w, unsynced, t, k, o);
    }
  }

  /** A job on track has created each of its records at most once. */
  lemma OwnedOnce(w: World, unsynced: set<Obj>, b: Books, job: Job, o: Obj)
    requires Ok(w, unsynced, b, job) && o in Footprint(w, unsynced, job)
    ensures b.created[o] <= 1
  {
  }

  // --- Overlapping footprints: the race is always there -------------------------------------------

  /** The first record a job creates, and the job as it is about to create it. */
  function First(w: World, unsynced: set<Obj>, job: Job): Obj {
    match job
    case PushCustomer(c, _) => C(c)
    case PushInvoice(i, _) => FirstOfInvoice(w, unsynced, i)
    case PushPayment(p, _) => if I(w.invoiceOf(p)) in unsynced then FirstOfInvoice(w, unsynced, w.invoiceOf(p)) else P(p)
  }

  function FirstOfInvoice(w: World, unsynced: set<Obj>, i: Id): Obj {
    if C(w.customerOf(i)) in unsynced then C(w.customerOf(i)) else I(i)
  }

  function InvoiceReady(w: World, unsynced: set<Obj>, i: Id): InvoicePc {
    if C(w.customerOf(i)) in unsynced then InCustomer(RemoteC(false), false) else RemoteI(false)
  }

  function ReadyJob(w: World, unsynced: set<Obj>, job: Job): Job {
    match job
    case PushCustomer(c, _) => PushCustomer(c, RemoteC(false))
    case PushInvoice(i, _) => PushInvoice(i, InvoiceReady(w, unsynced, i))
    case PushPayment(p, _) =>
      PushPayment(p, if I(w.invoiceOf(p)) in unsynced then InInvoice(InvoiceReady(w, unsynced, w.invoiceOf(p))) else RemoteP)
  }

  /** Jobs that share any record share the first one they create. */
  lemma OverlapSharesFirst(w: World, unsynced: set<Obj>, a: Job, b: Job, o: Obj)
    requires o in Footprint(w, unsynced, a) && o in Footprint(w, unsynced, b)
    ensures First(w, unsynced, a) == First(w, unsynced, b)
  {
  }

  lemma RunOne(w: World, s: State, schedule: seq<nat>, k: nat)
    ensures Run(w, s, schedule + [k]) == Next(w, Run(w, s, schedule), k)
  {
    assert (schedule + [k])[..|schedule|] == schedule;
  }

  predicate AtStart(w: World, unsynced: set<Obj>, synced: set<Obj>, job: Job) {
    match job
    case PushCustomer(c, pc) => pc.ReadC? && C(c) in unsynced
    case PushInvoice(i, pc) => pc.ReadI? && I(i) in unsynced && CustomerKnown(w, unsynced, synced, i)
    case PushPayment(p, pc) =>
      && pc.ReadP? && P(p) in unsynced
      && (if I(w.invoiceOf(p)) in unsynced then CustomerKnown(w, unsynced, synced, w.invoiceOf(p))
          else I(w.invoiceOf(p)) in synced && C(w.customerOf(w.invoiceOf(p))) in synced)
  }

  predicate CustomerKnown(w: World, unsynced: set<Obj>, synced: set<Obj>, i: Id) {
    C(w.customerOf(i)) in unsynced || C(w.customerOf(i)) in synced
  }

  lemma StepReads(w: World, s: State, schedule: seq<nat>, k: nat, next: Job)
    requires var r := Run(w, s, schedule);
      k < |r.jobs| && StepJob(w, Books(r.synced, r.created), r.jobs[k]) == (Books(r.synced, r.created), next)
    ensures var r := Run(w, s, schedule); Run(w, s, schedule + [k]) == r.(jobs := r.jobs[k := next])
  {
    RunOne(w, s, schedule, k);
  }

  /** Undisturbed, a job reads its way to its first creation and changes nothing before it. */
  lemma ReachFirst(w: World, unsynced: set<Obj>, s: State, schedule: seq<nat>, k: nat) returns (more: seq<nat>)
    requires var r := Run(w, s, schedule);
      k < |r.jobs| && r.synced !! unsynced && AtStart(w, unsynced, r.synced, r.jobs[k])
    ensures var r := Run(w, s, schedule);
      Run(w, s, more) == r.(jobs := r.jobs[k := ReadyJob(w, unsynced, r.jobs[k])])
  {
    var r := Run(w, s, schedule);
    match r.jobs[k]
    case PushCustomer(c, _) =>
      StepReads(w, s, schedule, k, PushCustomer(c, RemoteC(false)));
      more := schedule + [k];
    case PushInvoice(i, _) =>
      var next := if C(w.customerOf(i)) in unsynced then InCustomer(ReadC, false) else RecheckI(false);
      StepReads(w, s, schedule, k, PushInvoice(i, next));
      more := TwoMore(w, s, schedule, k, PushInvoice(i, next), PushInvoice(i, InvoiceReady(w, unsynced, i)));
    case PushPayment(p, _) =>
      var i := w.invoiceOf(p);
      if I(i) in unsynced {
        var next := if C(w.customerOf(i)) in unsynced then InCustomer(ReadC, false) else RecheckI(false);
        StepReads(w, s, schedule, k, PushPayment(p, InInvoice(ReadI)));
        var mid := TwoMore(w, s, schedule, k, PushPayment(p, InInvoice(ReadI)), PushPayment(p, InInvoice(next)));
        StepReads(w, s, mid, k, PushPayment(p, InInvoice(InvoiceReady(w, unsynced, i))));
        more := mid + [k];
      } else {
        StepReads(w, s, schedule, k, PushPayment(p, RecheckP));
        more := TwoMore(w, s, schedule, k, PushPayment(p, RecheckP), PushPayment(p, RemoteP));
      }
  }

  lemma TwoMore(w: World, s: State, schedule: seq<nat>, k: nat, one: Job, two: Job) returns (more: seq<nat>)
    requires var r := Run(w, s, schedule);
      && k < |r.jobs| && Run(w, s, schedule + [k]) == r.(jobs := r.jobs[k := one])
      && StepJob(w, Books(r.synced, r.created), one) == (Books(r.synced, r.created), two)
    ensures var r := Run(w, s, schedule); Run(w, s, more) == r.(jobs := r.jobs[k := two])
  {
    var r := Run(w, s, schedule);
    StepReads(w, s, schedule + [k], k, two);
    more := schedule + [k] + [k];
    assert r.jobs[k := one][k := two] == r.jobs[k := two];
  }

  lemma ReadyCreates(w: World, unsynced: set<Obj>, b: Books, job: Job)
    ensures StepJob(w, b, ReadyJob(w, unsynced, job)).0 == Create(b, First(w, unsynced, job))
  {
  }

  /** Two jobs whose footprints meet: some schedule creates a record twice. */
  lemma OverlapCreatesTwice(w: World, unsynced: set<Obj>, s: State, j: nat, k: nat) returns (schedule: seq<nat>)
    requires Start(w, unsynced, s) && j < k < |s.jobs|
    requires First(w, unsynced, s.jobs[j]) == First(w, unsynced, s.jobs[k])
    ensures Run(w, s, schedule).created[First(w, unsynced, s.jobs[j])] == 2
  {
    var a, b := ReadyJob(w, unsynced, s.jobs[j]), ReadyJob(w, unsynced, s.jobs[k]);
    assert Run(w, s, []) == s;
    var one := ReachFirst(w, unsynced, s, [], j);
    var two := ReachFirst(w, unsynced, s, one, k);
    var r := Run(w, s, two);
    assert r.jobs[j] == a && r.jobs[k] == b && r.created == multiset{};
    ReadyCreates(w, unsynced, Books(r.synced, r.created), s.jobs[j]);
    RunOne(w, s, two, j);
    var t := Run(w, s, two + [j]);
    assert t.jobs[k] == b;
    ReadyCreates(w, unsynced, Books(t.synced, t.created), s.jobs[k]);
    RunOne(w, s, two + [j], k);
    schedule := two + [j] + [k];
  }

  /** Every schedule creates every record at most once exactly when no two jobs share a record. */
  lemma CreatedOnceIffDisjoint(w: World, unsynced: set<Obj>, s: State)
    requires Start(w, unsynced, s)
    ensures (forall schedule, o :: Run(w, s, schedule).created[o] <= 1) <==> Disjoint(w, unsynced, s.jobs)
  {
    if Disjoint(w, unsynced, s.jobs) {
      forall schedule, o ensures Run(w, s, schedule).created[o] <= 1 {
        DisjointJobsCreateOnce(w, unsynced, s, schedule, o);
      }
    } else {
      var j, k :| 0 <= j < k < |s.jobs| && !(Footprint(w, unsynced, s.jobs[j]) !! Footprint(w, unsynced, s.jobs[k]));
      var o :| o in Footprint(w, unsynced, s.jobs[j]) && o in Footprint(w, unsynced, s.jobs[k]);
      OverlapSharesFirst(w, unsynced, s.jobs[j], s.jobs[k], o);
      var schedule := OverlapCreatesTwice(w, unsynced, s, j, k);
      assert Run(w, s, schedule).created[First(w, unsynced, s.jobs[j])] == 2;
    }
  }
}
