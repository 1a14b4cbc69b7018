/** What is stored is not created again, however the jobs of a backfill overlap. */
module BackfillRereads {
  import opened BackfillRuns

  /** The push has read the record as absent and may still create it. */
  predicate AbsentC(c: Id, pc: CustomerPc, o: Obj) {
    o == C(c) && pc == RemoteC(false)
  }

  predicate AbsentI(w: World, i: Id, pc: InvoicePc, o: Obj) {
    match pc
    case InCustomer(cpc, known) => AbsentC(w.customerOf(i), cpc, o) || (o == I(i) && !known)
    case RecheckI(known) => o == I(i) && !known
    case RemoteI(known) => o == I(i) && !known
    case _ => false
  }

  predicate Absent(w: World, job: Job, o: Obj) {
    match job
    case PushCustomer(c, pc) => AbsentC(c, pc, o)
    case PushInvoice(i, pc) => AbsentI(w, i, pc, o)
    case PushPayment(p, InInvoice(pc)) => AbsentI(w, w.invoiceOf(p), pc, o)
    case _ => false
  }

  lemma InvoiceRereads(w: World, b: Books, i: Id, pc: InvoicePc, o: Obj)
    requires !o.P? && o in b.synced && !AbsentI(w, i, pc, o)
    ensures var (after, next) := StepI(w, b, i, pc);
      after.created[o] == b.created[o] && o in after.synced && !AbsentI(w, i, next, o)
  {
  }

  lemma JobRereads(w: World, b: Books, job: Job, o: Obj)
    requires !o.P? && o in b.synced && !Absent(w, job, o)
    ensures var (after, next) := StepJob(w, b, job);
      after.created[o] == b.created[o] && o in after.synced && !Absent(w, next, o)
  {
    match job
    case PushCustomer(_, _) =>
    case PushInvoice(i, pc) => InvoiceRereads(w, b, i, pc, o);
    case PushPayment(p, pc) =>
      if pc.InInvoice? { InvoiceRereads(w, b, w.invoiceOf(p), pc.invoice, o); }
  }

  /**
   * Under every schedule: a customer or an invoice whose id is stored is not created again, unless a
   * job that had read it as absent before is still on its way to create it.
   */
  lemma {:induction false} StoredIsNotCreatedAgain(w: World, s: State, schedule: seq<nat>, o: Obj)
    requires !o.P? && o in s.synced && forall job | job in s.jobs :: !Absent(w, job, o)
    ensures var r := Run(w, s, schedule);
      r.created[o] == s.created[o] && o in r.synced && forall job | job in r.jobs :: !Absent(w, job, o)
  {
    if schedule != [] {
      var k := schedule[|schedule| - 1];
      StoredIsNotCreatedAgain(w, s, schedule[..|schedule| - 1], o);
      var r := Run(w, s, schedule[..|schedule| - 1]);
      if k < |r.jobs| {
        JobRereads(w, Books(r.synced, r.created), r.jobs[k], o);
      }
    }
  }
}
