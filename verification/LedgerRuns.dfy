/**
 * Every interleaving of the operations on one invoice. Each of them first reads and later writes,
 * and anything may happen in between: a webhook reads in one transaction and writes in another, the
 * others hold no lock on what they read. Only a recorded payment, a cancellation and the verdict on a
 * check test at their write what they read. An attempt's writes, which hold the row until the gateway
 * has answered, are one step. Zoho pulls are outside these runs.
 */
module LedgerRuns {
  import opened Common
  import opened InvoiceTransitions
  import opened Money
  import opened Ledger

  /** An operation between its read and its write, with what the write still uses of the read. */
  datatype Flight =
    // a gateway result for a payment, from a webhook or a confirmation
    | Settler(pid: nat, result: IntentStatus, at: Time, before: InvoiceStatus, statusRead: InvoiceStatus)
    // an attempt about to go to the gateway
    | Starter(via: Method, chargeMinor: int, nonce: string, statusRead: InvoiceStatus)
    // an issue or a first view about to write its status
    | Marker(to: InvoiceStatus)
    // a check submission storing its images
    | Submitter(claimedMinor: int)
    // a payment by staff; `paidRead` is what staff had recorded by then
    | Recorder(recording: Recording, via: Method, origin: Origin, paidRead: int)
    // a submission was found pending
    | Approver(submission: nat, amountMinor: int)
    // the verdict on a submission is about to be written
    | Closer(submission: nat, verdict: CheckStatus)
    // an invoice was read for a cancellation
    | Canceller(statusRead: InvoiceStatus)

  /** `cleared` remembers whether a gateway settlement was ever accepted. */
  datatype State = State(books: Books, flights: map<nat, Flight>, cleared: bool)

  datatype Step =
    // reads
    | ReadAttempt(op: nat, via: Method, enabled: bool, chargeMinor: int, nonce: string)
    | ReadEvent(op: nat, pid: nat, event: Event)
    | ReadConfirm(op: nat, pid: nat, retrieved: IntentStatus, now: Time)
    | ReadIssue(op: nat)
    | ReadView(op: nat)
    | ReadBalance(op: nat, enabled: bool)
    | ReadPayment(op: nat, amountMinor: int, via: Method)
    | BeginApproval(op: nat, submission: nat)
    | BeginRejection(op: nat, submission: nat)
    | ReadCancel(op: nat)
    // what follows them
    | Start(op: nat, answer: Answer)
    | Settle(op: nat)
    | Mark(op: nat)
    | Submit(op: nat)
    | ReadApproval(op: nat)
    | Commit(op: nat)
    | Close(op: nat)
    | CommitCancellation(op: nat)

  predicate IsRead(step: Step) {
    || step.ReadAttempt? || step.ReadEvent? || step.ReadConfirm? || step.ReadIssue? || step.ReadView?
    || step.ReadBalance? || step.ReadPayment? || step.BeginApproval? || step.BeginRejection? || step.ReadCancel?
  }

  /** The steps that write what a gateway answered. */
  predicate IsGateway(step: Step) {
    step.Start? || step.Settle?
  }

  /** The sum of the payments that staff recorded, by hand or by approving a check. */
  function Recorded(payments: seq<Payment>): int {
    if payments == [] then 0
    else Recorded(payments[..|payments| - 1])
         + (if payments[|payments| - 1].origin.Gateway? then 0 else payments[|payments| - 1].amountMinor)
  }

  function FromChecks(payments: seq<Payment>): nat {
    if payments == [] then 0
    else FromChecks(payments[..|payments| - 1]) + (if payments[|payments| - 1].origin.Approval? then 1 else 0)
  }

  /** A gateway names a payment by its reference, so only a payment that has one is ever named. */
  predicate FromGateway(b: Books, pid: nat) {
    pid < |b.payments| && b.payments[pid].gatewayReference.Some?
  }

  predicate Open(p: Payment) {
    p.status.INITIATED? || p.status.PROCESSING?
  }

  function ReadFor(b: Books, amountMinor: int, via: Method, origin: Origin): Option<Flight> {
    match ReadForPayment(b.invoice, amountMinor)
    case Success(recording) => Some(Recorder(recording, via, origin, Recorded(b.payments)))
    case Failure(_) => None
  }

  function Settling(b: Books, pid: nat, result: IntentStatus, at: Time): Flight {
    Settler(pid, result, at, BeforeAttempt(b.invoice), b.invoice.status)
  }

  /** What a read takes along, unless it already decides that there is nothing to write. */
  function Reads(b: Books, step: Step): Option<Flight>
    requires IsRead(step)
  {
    match step
    case ReadAttempt(_, via, enabled, chargeMinor, nonce) =>
      (match ReadForAttempt(b, enabled, AttemptKey(chargeMinor, nonce))
       case Some(status) => Some(Starter(via, chargeMinor, nonce, status))
       case None => None)
    case ReadEvent(_, pid, event) =>
      if FromGateway(b, pid) && !Dropped(b.payments[pid], event)
      then Some(Settling(b, pid, ResultOf(event.kind), event.occurredAt)) else None
    case ReadConfirm(_, pid, retrieved, now) =>
      if FromGateway(b, pid) && Open(b.payments[pid]) && (retrieved.SUCCEEDED? || retrieved.FAILED?)
      then Some(Settling(b, pid, retrieved, now)) else None
    case ReadIssue(_) => (match ReadForIssue(b.invoice) case Some(to) => Some(Marker(to)) case None => None)
    case ReadView(_) => (match ReadForView(b.invoice) case Some(to) => Some(Marker(to)) case None => None)
    case ReadBalance(_, enabled) =>
      if enabled && b.invoice.balanceMinor > 0 then Some(Submitter(b.invoice.balanceMinor)) else None
    case ReadPayment(_, amountMinor, via) => ReadFor(b, amountMinor, via, Staff)
    case BeginApproval(_, c) =>
      if c < |b.checks| && Pending(b.checks[c]) then Some(Approver(c, b.checks[c].amountMinor)) else None
    case BeginRejection(_, c) => if c < |b.checks| && Pending(b.checks[c]) then Some(Closer(c, REJECTED)) else None
    case ReadCancel(_) => if MayCancel(b.invoice) then Some(Canceller(b.invoice.status)) else None
  }

  function End(s: State, op: nat): State {
    s.(flights := s.flights - {op})
  }

  function AfterGateway(s: State, books: Books): State {
    s.(books := books, cleared := s.cleared || books.invoice.balanceMinor != s.books.invoice.balanceMinor)
  }

  /** A recorded payment is done, but for the verdict on the check it came from. */
  function Landed(s: State, op: nat, origin: Origin): State {
    if origin.Approval? then s.(flights := s.flights[op := Closer(origin.submission, APPROVED)]) else End(s, op)
  }

  /** What follows the read of flight `f`; a step of another kind of flight does nothing. */
  function Writes(s: State, step: Step, f: Flight): State
    requires !IsRead(step)
  {
    match step
    case Start(op, answer) =>
      if !f.Starter? then s
      else
        (match StartAttempt(s.books, f.via, f.chargeMinor, f.nonce, f.statusRead, answer)
         case Some(books) => End(AfterGateway(s, books), op)
         case None => End(s, op))
    case Settle(op) =>
      if !f.Settler? || !FromGateway(s.books, f.pid) then s
      else End(AfterGateway(s, SettleFrom(s.books, f.pid, f.statusRead, f.before, f.result, f.at)), op)
    case Mark(op) => if !f.Marker? then s else End(s.(books := Marked(s.books, f.to)), op)
    case Submit(op) => if !f.Submitter? then s else End(s.(books := Submitted(s.books, f.claimedMinor)), op)
    case ReadApproval(op) =>
      if !f.Approver? then s
      else
        (match ApprovedAmount(f.amountMinor, s.books.invoice.currency)
         case Failure(_) => End(s, op)
         case Success(amountMinor) =>
           match ReadFor(s.books, amountMinor, CHECK, Approval(f.submission))
           case Some(flight) => s.(flights := s.flights[op := flight])
           case None => End(s, op))
    case Commit(op) =>
      if !f.Recorder? then s
      else
        (match CommitPayment(s.books, f.recording, f.via, f.origin)
         case None => End(s, op)
         case Some(books) => Landed(s.(books := books), op, f.origin))
    case Close(op) =>
      if !f.Closer? || f.submission >= |s.books.checks| then s
      else
        (match FinishReview(s.books, f.submission, f.verdict)
         case Some(books) => End(s.(books := books), op)
         case None => End(s, op))
    case CommitCancellation(op) =>
      if !f.Canceller? then s
      else
        match CommitCancel(s.books, f.statusRead)
        case Some(books) => End(s.(books := books), op)
        case None => End(s, op)
  }

  function Next(s: State, step: Step): State {
    if IsRead(step) then
      match Reads(s.books, step)
      case Some(f) => if step.op in s.flights then s else s.(flights := s.flights[step.op := f])
      case None => s
    else if step.op in s.flights then Writes(s, step, s.flights[step.op])
    else s
  }

  function Run(s: State, steps: seq<Step>): State {
    if steps == [] then s else Next(Run(s, steps[..|steps| - 1]), steps[|steps| - 1])
  }

  // --- With nothing in between ---------------------------------------------------------

  /** One after the other, a read and its write. */
  function Both(s: State, read: Step, write: Step): State {
    Next(Next(s, read), write)
  }

  /** Undisturbed, reads and writes amount to the single transactions. */
  lemma UndisturbedGateway(s: State, op: nat)
    requires op !in s.flights
    ensures forall pid: nat, e | FromGateway(s.books, pid) ::
      Both(s, ReadEvent(op, pid, e), Settle(op)) == AfterGateway(s, HandleEvent(s.books, pid, e))
    ensures forall pid: nat, result, now | FromGateway(s.books, pid) ::
      Both(s, ReadConfirm(op, pid, result, now), Settle(op)) == AfterGateway(s, ConfirmClientResult(s.books, pid, result, now))
    ensures forall via, enabled, charge, nonce, answer ::
      Both(s, ReadAttempt(op, via, enabled, charge, nonce), Start(op, answer))
        == AfterGateway(s, CreateIntent(s.books, via, enabled, charge, nonce, answer).books)
  {
    forall pid: nat, e | FromGateway(s.books, pid)
      ensures Both(s, ReadEvent(op, pid, e), Settle(op)) == AfterGateway(s, HandleEvent(s.books, pid, e))
    {
      UndisturbedSettle(s, op, ReadEvent(op, pid, e));
    }
    forall pid: nat, result, now | FromGateway(s.books, pid)
      ensures Both(s, ReadConfirm(op, pid, result, now), Settle(op))
           == AfterGateway(s, ConfirmClientResult(s.books, pid, result, now))
    {
      UndisturbedSettle(s, op, ReadConfirm(op, pid, result, now));
    }
    forall via, enabled, charge, nonce, answer
      ensures Both(s, ReadAttempt(op, via, enabled, charge, nonce), Start(op, answer))
           == AfterGateway(s, CreateIntent(s.books, via, enabled, charge, nonce, answer).books)
    {
      UndisturbedAttempt(s, op, via, enabled, charge, nonce, answer);
    }
  }

  lemma UndisturbedSettle(s: State, op: nat, read: Step)
    requires op !in s.flights && (read.ReadEvent? || read.ReadConfirm?) && read.op == op && FromGateway(s.books, read.pid)
    ensures Both(s, read, Settle(op)) == AfterGateway(s,
      if read.ReadEvent? then HandleEvent(s.books, read.pid, read.event)
      else ConfirmClientResult(s.books, read.pid, read.retrieved, read.now))
  {
    if Reads(s.books, read).Some? {
      assert s.flights[op := Reads(s.books, read).value] - {op} == s.flights;
    }
  }

  lemma UndisturbedAttempt(s: State, op: nat, via: Method, enabled: bool, chargeMinor: int, nonce: string, answer: Answer)
    requires op !in s.flights
    ensures Both(s, ReadAttempt(op, via, enabled, chargeMinor, nonce), Start(op, answer))
         == AfterGateway(s, CreateIntent(s.books, via, enabled, chargeMinor, nonce, answer).books)
  {
    var read := ReadAttempt(op, via, enabled, chargeMinor, nonce);
    if Reads(s.books, read).Some? {
      assert s.flights[op := Reads(s.books, read).value] - {op} == s.flights;
    }
  }

  lemma UndisturbedCustomer(s: State, op: nat, enabled: bool)
    requires op !in s.flights
    ensures Both(s, ReadIssue(op), Mark(op)) == s.(books := Issue(s.books))
    ensures Both(s, ReadView(op), Mark(op)) == s.(books := FirstView(s.books))
    ensures Both(s, ReadBalance(op, enabled), Submit(op)) == s.(books := SubmitCheck(s.books, enabled))
  {
    UndisturbedMark(s, op, ReadIssue(op));
    UndisturbedMark(s, op, ReadView(op));
    var read := ReadBalance(op, enabled);
    if Reads(s.books, read).Some? {
      assert s.flights[op := Reads(s.books, read).value] - {op} == s.flights;
    }
  }

  lemma UndisturbedMark(s: State, op: nat, read: Step)
    requires op !in s.flights && (read.ReadIssue? || read.ReadView?) && read.op == op
    ensures Both(s, read, Mark(op)) == s.(books := if read.ReadIssue? then Issue(s.books) else FirstView(s.books))
  {
    if Reads(s.books, read).Some? {
      assert s.flights[op := Reads(s.books, read).value] - {op} == s.flights;
    }
  }

  /** An issued invoice that owes at least this positive amount. */
  predicate TakesPayment(i: Invoice, amountMinor: int) {
    && (i.status.SENT? || i.status.VIEWED? || i.status.PENDING_PAYMENT? || i.status.PARTIALLY_PAID?)
    && 0 < amountMinor <= i.balanceMinor
  }

  // --- What every reachable state keeps ---------------------------------------------

  ghost predicate SoundRecording(b: Books, f: Flight)
    requires f.Recorder?
  {
    var r := f.recording;
    && !f.origin.Gateway?
    && 0 < r.amountMinor <= r.balanceRead
    && r.to == (if r.amountMinor == r.balanceRead then PAID else PARTIALLY_PAID)
    && b.invoice.balanceMinor <= r.balanceRead
    // no ABA: while the balance is the one read, nothing was recorded or cleared since
    && (b.invoice.balanceMinor == r.balanceRead ==> Recorded(b.payments) == f.paidRead)
    && (f.origin.Approval? ==>
          f.origin.submission < |b.checks| && r.amountMinor == b.checks[f.origin.submission].amountMinor)
  }

  ghost predicate SoundFlight(b: Books, f: Flight) {
    match f
    case Settler(pid, _, _, _, _) => FromGateway(b, pid)
    case Submitter(claimed) => 0 < claimed && b.invoice.balanceMinor <= claimed
    case Recorder(_, _, _, _) => SoundRecording(b, f)
    case Approver(c, amountMinor) => c < |b.checks| && amountMinor == b.checks[c].amountMinor
    case Closer(c, _) => c < |b.checks|
    case _ => true
  }

  ghost predicate SoundBooks(b: Books, cleared: bool) {
    && 0 <= b.invoice.balanceMinor <= b.invoice.totalMinor
    // conservation: exact until a gateway settlement clears the balance, an upper bound afterwards
    && b.invoice.balanceMinor + Recorded(b.payments) <= b.invoice.totalMinor
    && (!cleared ==> b.invoice.balanceMinor + Recorded(b.payments) == b.invoice.totalMinor)
    // every submission claims at least what is still owed
    && (forall c | 0 <= c < |b.checks| ::
          0 < b.checks[c].amountMinor && b.invoice.balanceMinor <= b.checks[c].amountMinor)
    && FromChecks(b.payments) <= 1
    && (FromChecks(b.payments) == 1 ==> b.invoice.balanceMinor == 0)
    && DistinctKeys(b.payments)
  }

  ghost predicate DistinctKeys(payments: seq<Payment>) {
    && (forall i, j | 0 <= i < j < |payments| :: payments[i].key != payments[j].key)
    && (forall i | 0 <= i < |payments| && payments[i].key.ManualKey? :: payments[i].key.serial < |payments|)
  }

  ghost predicate Sound(s: State) {
    && SoundBooks(s.books, s.cleared)
    && forall op | op in s.flights :: SoundFlight(s.books, s.flights[op])
  }

  /** A freshly created invoice: nothing paid, nothing submitted, nothing in flight. */
  ghost predicate Initial(s: State) {
    && s.books.invoice.balanceMinor == s.books.invoice.totalMinor >= 0
    && s.books.invoice.status.DRAFT? && s.books.invoice.previousStatus.None?
    && s.books.payments == [] && s.books.checks == [] && s.flights == map[] && !s.cleared
  }

  lemma RecordedAppend(payments: seq<Payment>, p: Payment)
    ensures Recorded(payments + [p]) == Recorded(payments) + if p.origin.Gateway? then 0 else p.amountMinor
    ensures FromChecks(payments + [p]) == FromChecks(payments) + if p.origin.Approval? then 1 else 0
  {
    assert (payments + [p])[..|payments|] == payments;
  }

  /** A gateway result moves no amount and no origin. */
  lemma {:induction false} RecordedUpdate(payments: seq<Payment>, i: nat, p: Payment)
    requires i < |payments| && p.origin == payments[i].origin && p.amountMinor == payments[i].amountMinor
    ensures Recorded(payments[i := p]) == Recorded(payments)
    ensures FromChecks(payments[i := p]) == FromChecks(payments)
  {
    var n := |payments| - 1;
    if i < n {
      RecordedUpdate(payments[..n], i, p);
      assert payments[i := p][..n] == payments[..n][i := p];
    } else {
      assert payments[i := p][..n] == payments[..n];
    }
  }

  ghost predicate KeepsReferences(before: seq<Payment>, after: seq<Payment>) {
    && |before| <= |after|
    && forall i | 0 <= i < |before| :: after[i].gatewayReference == before[i].gatewayReference
  }

  /** What any gateway write does to the books: the balance stays or is cleared, and nothing that staff recorded moves. */
  ghost predicate GatewayEffect(b: Books, r: Books) {
    && Recorded(r.payments) == Recorded(b.payments) && FromChecks(r.payments) == FromChecks(b.payments)
    && r.checks == b.checks && r.invoice.totalMinor == b.invoice.totalMinor && KeepsReferences(b.payments, r.payments)
    && (r.invoice.balanceMinor == b.invoice.balanceMinor || r.invoice.balanceMinor == 0)
    && (DistinctKeys(b.payments) ==> DistinctKeys(r.payments))
  }

  lemma SettlementEffect(b: Books, pid: nat, statusRead: InvoiceStatus, before: InvoiceStatus, result: IntentStatus, at: Time)
    requires pid < |b.payments|
    ensures GatewayEffect(b, SettleFrom(b, pid, statusRead, before, result, at))
  {
    RecordedUpdate(b.payments, pid, SettledPayment(b.payments[pid], result, at));
  }

  lemma StartEffect(b: Books, via: Method, chargeMinor: int, nonce: string, statusRead: InvoiceStatus, answer: Answer)
    requires StartAttempt(b, via, chargeMinor, nonce, statusRead, answer).Some?
    ensures GatewayEffect(b, StartAttempt(b, via, chargeMinor, nonce, statusRead, answer).value)
  {
    var p := Payment(AttemptKey(chargeMinor, nonce), Gateway, via, chargeMinor, INITIATED, Some(answer.reference), None);
    var started := b.(payments := b.payments + [p],
                      invoice := b.invoice.(status := InvoiceStatus.PENDING_PAYMENT, previousStatus := Some(statusRead)));
    StartedEffect(b, started, p);
    SettlementEffect(started, |b.payments|, InvoiceStatus.PENDING_PAYMENT, statusRead, answer.status, answer.occurredAt);
  }

  lemma StartedEffect(b: Books, started: Books, p: Payment)
    requires started.payments == b.payments + [p] && p.origin.Gateway?
    requires !p.key.ManualKey? && IndexOfKey(b.payments, p.key).None?
    ensures Recorded(started.payments) == Recorded(b.payments) && FromChecks(started.payments) == FromChecks(b.payments)
    ensures DistinctKeys(b.payments) ==> DistinctKeys(started.payments)
  {
    RecordedAppend(b.payments, p);
  }

  lemma GatewayKeeps(s: State, books: Books)
    requires Sound(s) && GatewayEffect(s.books, books)
    ensures Sound(AfterGateway(s, books))
  {
  }

  lemma EndKeeps(s: State, op: nat)
    requires Sound(s)
    ensures Sound(End(s, op))
  {
  }

  lemma ReadForKeeps(b: Books, cleared: bool, amountMinor: int, via: Method, origin: Origin)
    requires SoundBooks(b, cleared) && !origin.Gateway?
    requires origin.Approval? ==> origin.submission < |b.checks| && amountMinor == b.checks[origin.submission].amountMinor
    ensures ReadFor(b, amountMinor, via, origin).Some? ==> SoundFlight(b, ReadFor(b, amountMinor, via, origin).value)
  {
  }

  /** What a read takes along is sound. */
  lemma ReadsKeep(s: State, step: Step)
    requires Sound(s) && IsRead(step)
    ensures Sound(Next(s, step))
  {
    if step.ReadPayment? { ReadForKeeps(s.books, s.cleared, step.amountMinor, step.via, Staff); }
    assert Reads(s.books, step).Some? ==> SoundFlight(s.books, Reads(s.books, step).value);
  }

  /** A committed recording: the balance pays for it exactly, and a check's payment empties it. */
  lemma CommitBooks(b: Books, cleared: bool, f: Flight)
    requires SoundBooks(b, cleared) && f.Recorder? && SoundRecording(b, f)
    requires CommitPayment(b, f.recording, f.via, f.origin).Some?
    ensures var r := CommitPayment(b, f.recording, f.via, f.origin).value;
      && SoundBooks(r, cleared)
      && r.checks == b.checks && KeepsReferences(b.payments, r.payments)
      && r.invoice.balanceMinor < b.invoice.balanceMinor
      && (f.origin.Approval? ==> r.invoice.balanceMinor == 0)
  {
    var r := CommitPayment(b, f.recording, f.via, f.origin).value;
    var p := r.payments[|b.payments|];
    assert r.payments == b.payments + [p];
    RecordedAppend(b.payments, p);
  }

  /** Whoever else is in flight stays sound: a lower balance only makes a stale read fail its test. */
  lemma LowerBalanceKeeps(b: Books, r: Books, f: Flight)
    requires SoundFlight(b, f)
    requires r.checks == b.checks && r.invoice.balanceMinor < b.invoice.balanceMinor && KeepsReferences(b.payments, r.payments)
    ensures SoundFlight(r, f)
  {
  }

  lemma CommitKeeps(s: State, op: nat)
    requires Sound(s) && op in s.flights && s.flights[op].Recorder?
    ensures Sound(Next(s, Commit(op)))
  {
    var f := s.flights[op];
    assert SoundFlight(s.books, f);
    match CommitPayment(s.books, f.recording, f.via, f.origin)
    case None =>
    case Some(books) =>
      CommitBooks(s.books, s.cleared, f);
      FlightsKept(s, books);
      LandedKeeps(s.(books := books), op, f.origin);
  }

  lemma LandedKeeps(s: State, op: nat, origin: Origin)
    requires Sound(s) && (origin.Approval? ==> origin.submission < |s.books.checks|)
    ensures Sound(Landed(s, op, origin))
  {
  }

  lemma FlightsKept(s: State, books: Books)
    requires Sound(s) && SoundBooks(books, s.cleared)
    requires books.checks == s.books.checks && books.invoice.balanceMinor < s.books.invoice.balanceMinor
    requires KeepsReferences(s.books.payments, books.payments)
    ensures Sound(s.(books := books))
  {
    forall o | o in s.flights ensures SoundFlight(books, s.flights[o]) {
      LowerBalanceKeeps(s.books, books, s.flights[o]);
    }
  }

  lemma SettleKeeps(s: State, op: nat)
    requires Sound(s) && op in s.flights && s.flights[op].Settler?
    ensures Sound(Next(s, Settle(op)))
  {
    var f := s.flights[op];
    assert SoundFlight(s.books, f);
    SettlementEffect(s.books, f.pid, f.statusRead, f.before, f.result, f.at);
    var books := SettleFrom(s.books, f.pid, f.statusRead, f.before, f.result, f.at);
    GatewayKeeps(s, books);
    EndKeeps(AfterGateway(s, books), op);
  }

  lemma StartKeeps(s: State, op: nat, answer: Answer)
    requires Sound(s) && op in s.flights && s.flights[op].Starter?
    ensures Sound(Next(s, Start(op, answer)))
  {
    var f := s.flights[op];
    match StartAttempt(s.books, f.via, f.chargeMinor, f.nonce, f.statusRead, answer)
    case None => EndKeeps(s, op);
    case Some(books) =>
      StartEffect(s.books, f.via, f.chargeMinor, f.nonce, f.statusRead, answer);
      GatewayKeeps(s, books);
      EndKeeps(AfterGateway(s, books), op);
  }

  /** A submission may come late: it claims what was read, and the balance has only gone down. */
  lemma SubmitKeeps(s: State, op: nat)
    requires Sound(s) && op in s.flights && s.flights[op].Submitter?
    ensures Sound(Next(s, Submit(op)))
  {
    assert SoundFlight(s.books, s.flights[op]);
  }

  lemma CloseKeeps(s: State, op: nat)
    requires Sound(s) && op in s.flights && s.flights[op].Closer?
    ensures Sound(Next(s, Close(op)))
  {
  }

  /** Writes of the status move no money. */
  lemma StatusKeeps(s: State, books: Books, op: nat)
    requires Sound(s) && books == s.books.(invoice := books.invoice)
    requires books.invoice.balanceMinor == s.books.invoice.balanceMinor && books.invoice.totalMinor == s.books.invoice.totalMinor
    ensures Sound(End(s.(books := books), op))
  {
    forall f | SoundFlight(s.books, f) ensures SoundFlight(books, f) {
    }
  }

  lemma CancelKeeps(s: State, op: nat)
    requires Sound(s) && op in s.flights && s.flights[op].Canceller?
    ensures Sound(Next(s, CommitCancellation(op)))
  {
    match CommitCancel(s.books, s.flights[op].statusRead)
    case Some(books) => StatusKeeps(s, books, op);
    case None => EndKeeps(s, op);
  }

  lemma ApprovalKeeps(s: State, op: nat)
    requires Sound(s) && op in s.flights && s.flights[op].Approver?
    ensures Sound(Next(s, ReadApproval(op)))
  {
    var f := s.flights[op];
    assert SoundFlight(s.books, f);
    ApprovedAmountIs(f.amountMinor, s.books.invoice.currency);
    EndKeeps(s, op);
    ReadForKeeps(s.books, s.cleared, f.amountMinor, CHECK, Approval(f.submission));
  }

  lemma StepKeeps(s: State, step: Step)
    requires Sound(s)
    ensures Sound(Next(s, step))
  {
    if IsRead(step) {
      ReadsKeep(s, step);
    } else if step.op in s.flights {
      match step
      case Start(op, answer) => if s.flights[op].Starter? { StartKeeps(s, op, answer); }
      case Settle(op) => if s.flights[op].Settler? { SettleKeeps(s, op); }
      case Submit(op) => if s.flights[op].Submitter? { SubmitKeeps(s, op); }
      case ReadApproval(op) => if s.flights[op].Approver? { ApprovalKeeps(s, op); }
      case Commit(op) => if s.flights[op].Recorder? { CommitKeeps(s, op); }
      case Close(op) => if s.flights[op].Closer? { CloseKeeps(s, op); }
      case Mark(op) => if s.flights[op].Marker? { StatusKeeps(s, Marked(s.books, s.flights[op].to), op); }
      case CommitCancellation(op) => if s.flights[op].Canceller? { CancelKeeps(s, op); }
    }
  }

  lemma {:induction false} RunKeeps(s: State, steps: seq<Step>)
    requires Sound(s)
    ensures Sound(Run(s, steps))
  {
    if steps != [] {
      RunKeeps(s, steps[..|steps| - 1]);
      StepKeeps(Run(s, steps[..|steps| - 1]), steps[|steps| - 1]);
    }
  }

  /**
   * The books of every run from a new invoice: the balance stays between zero and the total, what
   * staff recorded never exceeds what the balance gave up, and until a gateway writes the two add up
   * to the total exactly.
   */
  lemma BooksAlwaysBalance(s: State, steps: seq<Step>)
    requires Initial(s)
    ensures var b := Run(s, steps).books;
      && 0 <= b.invoice.balanceMinor <= b.invoice.totalMinor == s.books.invoice.totalMinor
      && b.invoice.balanceMinor + Recorded(b.payments) <= b.invoice.totalMinor
      && ((forall step | step in steps :: !IsGateway(step)) ==>
            b.invoice.balanceMinor + Recorded(b.payments) == b.invoice.totalMinor)
  {
    RunKeeps(s, steps);
    TotalFixed(s, steps);
  }

  lemma {:induction false} TotalFixed(s: State, steps: seq<Step>)
    requires Sound(s)
    ensures Run(s, steps).books.invoice.totalMinor == s.books.invoice.totalMinor
    ensures (forall step | step in steps :: !IsGateway(step)) ==> Run(s, steps).cleared == s.cleared
  {
    if steps != [] {
      var before := Run(s, steps[..|steps| - 1]);
      TotalFixed(s, steps[..|steps| - 1]);
      StepTotal(before, steps[|steps| - 1]);
    }
  }

  lemma StepTotal(s: State, step: Step)
    ensures Next(s, step).books.invoice.totalMinor == s.books.invoice.totalMinor
    ensures !IsGateway(step) ==> Next(s, step).cleared == s.cleared
  {
  }

  /** At most one check payment is ever recorded, whoever approves what and when. */
  lemma ChecksNeverDoubleMoney(s: State, steps: seq<Step>)
    requires Initial(s)
    ensures FromChecks(Run(s, steps).books.payments) <= 1
    ensures FromChecks(Run(s, steps).books.payments) == 1 ==> Run(s, steps).books.invoice.balanceMinor == 0
  {
    RunKeeps(s, steps);
  }

  /** What the commit of a check's payment does to the books. */
  ghost predicate EmptiesBalance(before: Books, after: Books) {
    && FromChecks(before.payments) == 0 && FromChecks(after.payments) == 1
    && before.invoice.balanceMinor > 0 && after.invoice.balanceMinor == 0
    && |after.payments| == |before.payments| + 1
    && after.payments[|before.payments|].amountMinor == before.invoice.balanceMinor
  }

  lemma CommitEmpties(b: Books, cleared: bool, f: Flight)
    requires SoundBooks(b, cleared) && f.Recorder? && SoundRecording(b, f)
    requires CommitPayment(b, f.recording, f.via, f.origin).Some?
    ensures var r := CommitPayment(b, f.recording, f.via, f.origin).value;
      FromChecks(r.payments) != FromChecks(b.payments) ==> EmptiesBalance(b, r)
  {
    var r := CommitPayment(b, f.recording, f.via, f.origin).value;
    var p := r.payments[|b.payments|];
    assert r.payments == b.payments + [p];
    RecordedAppend(b.payments, p);
    if f.origin.Approval? {
      assert b.invoice.balanceMinor <= b.checks[f.origin.submission].amountMinor;
    }
  }

  lemma OthersRecordNoCheck(s: State, step: Step)
    requires Sound(s) && !step.Commit?
    ensures FromChecks(Next(s, step).books.payments) == FromChecks(s.books.payments)
  {
    if step.op in s.flights {
      var f := s.flights[step.op];
      if step.Settle? && f.Settler? {
        assert SoundFlight(s.books, f);
        SettlementEffect(s.books, f.pid, f.statusRead, f.before, f.result, f.at);
      } else if step.Start? && f.Starter? && StartAttempt(s.books, f.via, f.chargeMinor, f.nonce, f.statusRead, step.answer).Some? {
        StartEffect(s.books, f.via, f.chargeMinor, f.nonce, f.statusRead, step.answer);
      }
    }
  }

  /** Each recorded check payment brings the balance to exactly zero at the step that records it. */
  lemma CheckPaymentEmptiesBalance(s: State, steps: seq<Step>, step: Step)
    requires Initial(s)
    ensures var before := Run(s, steps).books; var after := Next(Run(s, steps), step).books;
      FromChecks(after.payments) != FromChecks(before.payments) ==> step.Commit? && EmptiesBalance(before, after)
  {
    var r := Run(s, steps);
    RunKeeps(s, steps);
    StepEmpties(r, step);
  }

  lemma StepEmpties(r: State, step: Step)
    requires Sound(r)
    ensures FromChecks(Next(r, step).books.payments) != FromChecks(r.books.payments) ==>
      step.Commit? && EmptiesBalance(r.books, Next(r, step).books)
  {
    if !step.Commit? {
      OthersRecordNoCheck(r, step);
    } else if step.op in r.flights && r.flights[step.op].Recorder? {
      var f := r.flights[step.op];
      assert SoundFlight(r.books, f);
      if CommitPayment(r.books, f.recording, f.via, f.origin).Some? {
        CommitEmpties(r.books, r.cleared, f);
      }
    }
  }
}
