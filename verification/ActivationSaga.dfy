/** The activation saga between billing and contracts: a payment message makes the contract side activate the
    contract or report that it cannot be activated, and a report makes billing request a refund. Both sides
    receive at least once and keep an inbox; the outbox drops a message it has already published. Billing goes
    on with everything it does to invoices in between. */
module ActivationSaga {
  import opened Sums
  import opened Ledger
  import opened Outbox
  import opened Inbox
  import opened Contracts
  import opened Settlement
  import opened SettlementSafety
  import opened SettlementRaces

  // Messages are numbered by their place in the sender's outbox; an inbox maps the numbers it has claimed.
  datatype BillingSide = BillingSide(books: Books, claims: map<nat, ClaimState>)

  datatype ContractSide = ContractSide(
    contracts: map<Id, Contract>,
    claims: map<nat, ClaimState>,
    reports: seq<Message>)

  datatype Saga = Saga(billing: BillingSide, contracting: ContractSide) {
    function Sent(): seq<Message> {
      billing.books.outbox
    }

    function Bills(): map<Id, Bill> {
      billing.books.bills
    }
  }

  function NewSaga(contracts: map<Id, Contract>): Saga {
    Saga(BillingSide(NO_BOOKS, map[]), ContractSide(contracts, map[], []))
  }

  // ---- The two consumers ------------------------------------------------------

  function FailureReport(contract: Id, c: Contract, invoice: Id): Message {
    Message(ActivationFailed, contract, c.revision, Some(contract), invoice, false)
  }

  function ActivationReport(contract: Id, c: Contract, invoice: Id): Message {
    Message(MessageKind.Activated, contract, c.revision + 1, Some(contract), invoice, false)
  }

  /** What the paid-event handler's transaction does. */
  function PaidEffect(side: ContractSide, event: Message, v: Verification): ContractSide {
    if event.contract.None? || event.contract.value !in side.contracts then side
    else
      var id := event.contract.value;
      var c := side.contracts[id];
      if c.status.Active? then side
      else if !FullySigned(c, v) then side.(reports := PublishLocal(side.reports, FailureReport(id, c, event.invoice)))
      else
        side.(contracts := side.contracts[id := Acted(c, InvoicePaidFor(v))],
              reports := PublishLocal(side.reports, ActivationReport(id, c, event.invoice)))
  }

  /** A delivery of payment message `k`. A message once claimed is skipped from then on. */
  function ReceivePaid(side: ContractSide, k: nat, event: Message, v: Verification, landing: Landing): ContractSide {
    if k in side.claims then side
    else
      var done := if Begun(landing) then PaidEffect(side, event, v) else side;
      done.(claims := side.claims[k := Ending(landing)])
  }

  /** A delivery of failure report `m` to billing. */
  function ReceiveReport(side: BillingSide, m: nat, report: Message, other: Option<Id>, landing: Landing): BillingSide {
    if m in side.claims then side
    else
      var done := if Begun(landing) then side.(books := RefundNamed(side.books, report.invoice, other)) else side;
      done.(claims := side.claims[m := Ending(landing)])
  }

  // ---- Runs -------------------------------------------------------------------

  // `ContractMoves` is anything else that happens to a contract, a new one included.
  datatype SagaStep =
    | BillingStep(s: Step)
    | ContractMoves(id: Id, c: Contract)
    | PaidArrives(k: nat, v: Verification, landing: Landing)
    | ReportArrives(m: nat, other: Option<Id>, landing: Landing)

  predicate IsPaidRow(outbox: seq<Message>, k: nat) {
    k < |outbox| && outbox[k].kind.InvoicePaid?
  }

  predicate IsFailure(reports: seq<Message>, m: nat) {
    m < |reports| && reports[m].kind.ActivationFailed?
  }

  function SagaDo(s: Saga, e: SagaStep): Saga {
    match e
    case BillingStep(step) => s.(billing := s.billing.(books := Do(s.billing.books, step)))
    case ContractMoves(id, c) => s.(contracting := s.contracting.(contracts := s.contracting.contracts[id := c]))
    case PaidArrives(k, v, landing) =>
      if IsPaidRow(s.Sent(), k) then s.(contracting := ReceivePaid(s.contracting, k, s.Sent()[k], v, landing)) else s
    case ReportArrives(m, other, landing) =>
      if IsFailure(s.contracting.reports, m)
      then s.(billing := ReceiveReport(s.billing, m, s.contracting.reports[m], other, landing)) else s
  }

  /** The contract a step makes a new invoice for. */
  function BilledContract(s: Step): Option<Id> {
    match s
    case Prepayment(_, _, _, contract) => Some(contract)
    case LatePrepayment(_, _, _, contract) => Some(contract)
    case Fine(_, _, _, contract, _) => contract
    case LateFine(_, _, _, contract, _) => contract
    case _ => None
  }

  /** Invoices are made for contracts that exist and contracts are never deleted; late deletions spare what has
      been paid since; refunds come of reports alone. */
  ghost predicate SagaCan(s: Saga, e: SagaStep) {
    match e
    case BillingStep(step) =>
      && Possible(s.billing.books, step) && Spares(s.billing.books, step) && !step.ActivationFails?
      && (BilledContract(step).Some? ==> BilledContract(step).value in s.contracting.contracts)
    case ReportArrives(m, other, _) =>
      IsFailure(s.contracting.reports, m) ==>
        Substitutes(s.billing.books, s.contracting.reports[m].aggregate, other)
    case _ => true
  }

  /** The states a run passes through, one more than its steps. */
  ghost predicate Story(states: seq<Saga>, steps: seq<SagaStep>) {
    && |states| == |steps| + 1
    && forall i {:trigger steps[i]} :: 0 <= i < |steps| ==>
        SagaCan(states[i], steps[i]) && states[i + 1] == SagaDo(states[i], steps[i])
  }

  // ---- What every run keeps ---------------------------------------------------

  predicate PaidFor(bills: map<Id, Bill>, invoice: Id, contract: Id) {
    IsPaid(bills, invoice) && bills[invoice].contract == Some(contract)
  }

  /** A payment message is about a paid invoice and names its contract. */
  predicate AboutPaid(bills: map<Id, Bill>, m: Message) {
    m.kind.InvoicePaid? ==>
      m.invoice == m.aggregate && m.contract.Some? && PaidFor(bills, m.invoice, m.contract.value)
  }

  predicate Refunded(outbox: seq<Message>, invoice: Id) {
    exists k :: 0 <= k < |outbox| && outbox[k].kind.RefundRequested? && outbox[k].aggregate == invoice
  }

  predicate Reported(reports: seq<Message>, invoice: Id) {
    exists m :: 0 <= m < |reports| && IsFailure(reports, m) && reports[m].invoice == invoice
  }

  predicate BillsKnown(bills: map<Id, Bill>, contracts: map<Id, Contract>) {
    forall i :: i in bills && bills[i].contract.Some? ==> bills[i].contract.value in contracts
  }

  predicate SentFine(bills: map<Id, Bill>, outbox: seq<Message>) {
    forall k :: 0 <= k < |outbox| ==> AboutPaid(bills, outbox[k])
  }

  /** A failure report names a paid invoice of its contract. */
  predicate ReportsFine(bills: map<Id, Bill>, reports: seq<Message>) {
    forall m :: 0 <= m < |reports| && IsFailure(reports, m) ==>
      PaidFor(bills, reports[m].invoice, reports[m].aggregate)
  }

  predicate ClaimsFine(s: Saga) {
    && (forall k :: k in s.contracting.claims ==> IsPaidRow(s.Sent(), k))
    && (forall m :: m in s.billing.claims ==> IsFailure(s.contracting.reports, m))
  }

  /** What has been reported and taken in has its refund requested, and nothing else has. */
  predicate RefundsFine(s: Saga) {
    && (forall m :: m in s.billing.claims && s.billing.claims[m].Processed? && IsFailure(s.contracting.reports, m) ==>
          Refunded(s.Sent(), s.contracting.reports[m].invoice))
    && (forall k :: 0 <= k < |s.Sent()| && s.Sent()[k].kind.RefundRequested? ==>
          Reported(s.contracting.reports, s.Sent()[k].aggregate))
  }

  predicate SagaInv(s: Saga) {
    && Sound(s.billing.books)
    && BillsKnown(s.Bills(), s.contracting.contracts)
    && SentFine(s.Bills(), s.Sent())
    && ReportsFine(s.Bills(), s.contracting.reports)
    && ClaimsFine(s)
    && RefundsFine(s)
  }

  /** Messages, reports and claims only add up, and paid invoices stay. */
  predicate Grows(s: Saga, t: Saga) {
    && s.Sent() <= t.Sent() && s.contracting.reports <= t.contracting.reports
    && PaidStay(s.Bills(), t.Bills())
    && s.contracting.contracts.Keys <= t.contracting.contracts.Keys
    && (forall k :: k in s.contracting.claims ==>
          k in t.contracting.claims && t.contracting.claims[k] == s.contracting.claims[k])
    && (forall m :: m in s.billing.claims ==> m in t.billing.claims && t.billing.claims[m] == s.billing.claims[m])
  }

  lemma NewSagaIsFine(contracts: map<Id, Contract>)
    ensures SagaInv(NewSaga(contracts))
  {
  }

  lemma ReportedStays(before: seq<Message>, after: seq<Message>, invoice: Id)
    requires before <= after && Reported(before, invoice)
    ensures Reported(after, invoice)
  {
    var m :| 0 <= m < |before| && IsFailure(before, m) && before[m].invoice == invoice;
    assert IsFailure(after, m) && after[m].invoice == invoice;
  }

  lemma RefundedStays(before: seq<Message>, after: seq<Message>, invoice: Id)
    requires before <= after && Refunded(before, invoice)
    ensures Refunded(after, invoice)
  {
    var k :| 0 <= k < |before| && before[k].kind.RefundRequested? && before[k].aggregate == invoice;
    assert after[k] == before[k];
  }

  // ---- Billing's own steps ------------------------------------------------------

  /** What is added to the outbox are payments of the invoices they name, and no refund. */
  predicate SendsPayments(b: Books, after: Books) {
    && b.outbox <= after.outbox
    && forall k :: |b.outbox| <= k < |after.outbox| ==>
      AboutPaid(after.bills, after.outbox[k]) && !after.outbox[k].kind.RefundRequested?
  }

  lemma PayingSends(b: Books, after: Books)
    requires PaysAtMostOne(b, after)
    ensures SendsPayments(b, after)
  {
  }

  lemma StepSends(b: Books, s: Step)
    requires Possible(b, s) && !s.ActivationFails?
    ensures SendsPayments(b, Do(b, s))
  {
    if s.WebhookCall? || s.CheckLink? || s.LateSettle? || s.LateFail? || s.QrRequest? || s.CashDesk? {
      HandlersPayAtMostOne(b, s);
      PayingSends(b, Do(b, s));
    } else {
      match s
      case Fine(_, _, _, _, _) =>
      case LateFine(_, _, _, _, _) =>
      case Reconcile(_, _) =>
      case _ =>
    }
  }

  lemma StepBills(b: Books, s: Step)
    ensures var after := Do(b, s).bills;
      forall i :: i in after && after[i].contract.Some? ==>
        (i in b.bills && after[i].contract == b.bills[i].contract) || after[i].contract == BilledContract(s)
  {
    if s.WebhookCall? || s.CheckLink? || s.LateSettle? || s.LateFail? || s.QrRequest? || s.CashDesk? {
      HandlersPayAtMostOne(b, s);
    }
  }

  lemma SentKept(b: Books, after: Books)
    requires SentFine(b.bills, b.outbox) && PaidStay(b.bills, after.bills) && b.outbox <= after.outbox
    requires forall k :: |b.outbox| <= k < |after.outbox| ==> AboutPaid(after.bills, after.outbox[k])
    ensures SentFine(after.bills, after.outbox)
  {
    forall k | 0 <= k < |after.outbox| ensures AboutPaid(after.bills, after.outbox[k]) {
      if k < |b.outbox| {
        assert AboutPaid(b.bills, b.outbox[k]);
      }
    }
  }

  lemma BillingKeeps(s: Saga, e: SagaStep)
    requires SagaInv(s) && e.BillingStep? && SagaCan(s, e)
    ensures SagaInv(SagaDo(s, e)) && Grows(s, SagaDo(s, e))
  {
    var b := s.billing.books;
    var t := SagaDo(s, e);
    StepKeeps(b, e.s);
    StepSends(b, e.s);
    StepBills(b, e.s);
    SentKept(b, t.billing.books);
    forall m | m in t.billing.claims && t.billing.claims[m].Processed? && IsFailure(t.contracting.reports, m)
      ensures Refunded(t.Sent(), t.contracting.reports[m].invoice)
    {
      RefundedStays(s.Sent(), t.Sent(), s.contracting.reports[m].invoice);
    }
  }

  // ---- The deliveries -----------------------------------------------------------

  /** The only message a delivery adds is the activation or failure report of the payment it delivers. */
  predicate ReportOf(side: ContractSide, event: Message, m: Message) {
    && event.contract.Some? && event.contract.value in side.contracts
    && var id := event.contract.value;
       m == FailureReport(id, side.contracts[id], event.invoice)
       || m == ActivationReport(id, side.contracts[id], event.invoice)
  }

  lemma PaidEffectReports(side: ContractSide, event: Message, v: Verification)
    ensures var after := PaidEffect(side, event, v).reports;
      after == side.reports
      || exists m :: ReportOf(side, event, m) && !Published(side.reports, m) && after == side.reports + [m]
  {
    var after := PaidEffect(side, event, v).reports;
    if after != side.reports {
      assert ReportOf(side, event, after[|side.reports|]);
    }
  }

  lemma PaidArrivalKeeps(s: Saga, e: SagaStep)
    requires SagaInv(s) && e.PaidArrives?
    ensures SagaInv(SagaDo(s, e)) && Grows(s, SagaDo(s, e))
  {
    var t := SagaDo(s, e);
    if t != s {
      var event := s.Sent()[e.k];
      assert AboutPaid(s.Bills(), event);
      PaidEffectReports(s.contracting, event, e.v);
      forall i | Reported(s.contracting.reports, i) ensures Reported(t.contracting.reports, i) {
        ReportedStays(s.contracting.reports, t.contracting.reports, i);
      }
      forall m: nat | IsFailure(t.contracting.reports, m)
        ensures PaidFor(t.Bills(), t.contracting.reports[m].invoice, t.contracting.reports[m].aggregate)
      {
        if m < |s.contracting.reports| {
          assert IsFailure(s.contracting.reports, m);
        }
      }
    }
  }

  lemma NamedInvoiceIsThere(s: Saga, m: nat, other: Option<Id>)
    requires SagaInv(s) && IsFailure(s.contracting.reports, m)
    ensures RefundNamed(s.billing.books, s.contracting.reports[m].invoice, other)
      == Refund(s.billing.books, s.contracting.reports[m].invoice)
  {
  }

  lemma RefundIsSent(b: Books, invoice: Id)
    requires invoice in b.bills
    ensures var after := Refund(b, invoice);
      && b.outbox <= after.outbox && Refunded(after.outbox, invoice)
      && (forall k :: |b.outbox| <= k < |after.outbox| ==>
            after.outbox[k].kind.RefundRequested? && after.outbox[k].aggregate == invoice)
      && after.bills == b.bills[invoice := b.bills[invoice].(revision := after.bills[invoice].revision)]
  {
    var after := Refund(b, invoice);
    var next := NextRevision(b.bills[invoice].revision);
    var m := Message(RefundRequested, invoice, next, b.bills[invoice].contract, invoice, false);
    if Published(b.outbox, m) {
      var k :| 0 <= k < |b.outbox| && SameKey(b.outbox[k], m);
      assert after.outbox[k].kind.RefundRequested? && after.outbox[k].aggregate == invoice;
    } else {
      assert after.outbox[|b.outbox|] == m;
    }
  }

  lemma ReportArrivalRefunds(s: Saga, e: SagaStep)
    requires SagaInv(s) && e.ReportArrives? && SagaCan(s, e)
    ensures RefundsFine(SagaDo(s, e)) && s.Sent() <= SagaDo(s, e).Sent()
  {
    var t := SagaDo(s, e);
    if t != s && Begun(e.landing) {
      var invoice := s.contracting.reports[e.m].invoice;
      NamedInvoiceIsThere(s, e.m, e.other);
      RefundIsSent(s.billing.books, invoice);
      forall i | Refunded(s.Sent(), i) ensures Refunded(t.Sent(), i) {
        RefundedStays(s.Sent(), t.Sent(), i);
      }
    }
  }

  lemma ReportArrivalBooks(s: Saga, e: SagaStep)
    requires SagaInv(s) && e.ReportArrives?
    ensures Keeps(s.billing.books, SagaDo(s, e).billing.books)
    ensures SentFine(SagaDo(s, e).Bills(), SagaDo(s, e).Sent())
    ensures BillsKnown(SagaDo(s, e).Bills(), s.contracting.contracts)
  {
    var t := SagaDo(s, e);
    if t.billing.books != s.billing.books {
      var invoice := s.contracting.reports[e.m].invoice;
      NamedInvoiceIsThere(s, e.m, e.other);
      RefundKeeps(s.billing.books, invoice);
      RefundIsSent(s.billing.books, invoice);
      SentKept(s.billing.books, t.billing.books);
    }
  }

  lemma ReportArrivalKeeps(s: Saga, e: SagaStep)
    requires SagaInv(s) && e.ReportArrives? && SagaCan(s, e)
    ensures SagaInv(SagaDo(s, e)) && Grows(s, SagaDo(s, e))
  {
    ReportArrivalRefunds(s, e);
    ReportArrivalBooks(s, e);
  }

  lemma SagaStepKeeps(s: Saga, e: SagaStep)
    requires SagaInv(s) && SagaCan(s, e)
    ensures SagaInv(SagaDo(s, e)) && Grows(s, SagaDo(s, e))
  {
    match e
    case BillingStep(_) => BillingKeeps(s, e);
    case ContractMoves(_, _) =>
    case PaidArrives(_, _, _) => PaidArrivalKeeps(s, e);
    case ReportArrives(_, _, _) => ReportArrivalKeeps(s, e);
  }

  lemma {:induction false} StoryKeeps(states: seq<Saga>, steps: seq<SagaStep>, k: nat)
    requires Story(states, steps) && SagaInv(states[0]) && k <= |steps|
    ensures SagaInv(states[k])
  {
    if k > 0 {
      StoryKeeps(states, steps, k - 1);
      SagaStepKeeps(states[k - 1], steps[k - 1]);
    }
  }

  lemma {:induction false} StoryGrows(states: seq<Saga>, steps: seq<SagaStep>, j: nat, k: nat)
    requires Story(states, steps) && SagaInv(states[0]) && j <= k <= |steps|
    ensures Grows(states[j], states[k])
    decreases k
  {
    if j < k {
      StoryGrows(states, steps, j, k - 1);
      StoryKeeps(states, steps, k - 1);
      SagaStepKeeps(states[k - 1], steps[k - 1]);
    }
  }

  // ---- Each side by itself ----------------------------------------------------

  /** Whatever contract side billing was in step with, having published this report, it still is. */
  ghost predicate BillingStaysInStep(before: BillingSide, after: BillingSide, m: nat, report: Message) {
    forall c: ContractSide | SagaInv(Saga(before, c)) && IsFailure(c.reports, m) && c.reports[m] == report ::
      SagaInv(Saga(after, c))
  }

  lemma ReportKeepsStep(side: BillingSide, m: nat, report: Message, other: Option<Id>, landing: Landing)
    requires Substitutes(side.books, report.aggregate, other)
    ensures BillingStaysInStep(side, ReceiveReport(side, m, report, other, landing), m, report)
  {
    forall c: ContractSide | SagaInv(Saga(side, c)) && IsFailure(c.reports, m) && c.reports[m] == report
      ensures SagaInv(Saga(ReceiveReport(side, m, report, other, landing), c))
    {
      SagaStepKeeps(Saga(side, c), ReportArrives(m, other, landing));
    }
  }

  /** Whatever billing side the contracts were in step with, they still are. */
  ghost predicate ContractsStayInStep(before: ContractSide, after: ContractSide) {
    forall b: BillingSide | SagaInv(Saga(b, before)) :: SagaInv(Saga(b, after))
  }

  lemma MoveKeepsStep(side: ContractSide, id: Id, c: Contract)
    ensures ContractsStayInStep(side, side.(contracts := side.contracts[id := c]))
  {
    forall b: BillingSide | SagaInv(Saga(b, side))
      ensures SagaInv(Saga(b, side.(contracts := side.contracts[id := c])))
    {
      SagaStepKeeps(Saga(b, side), ContractMoves(id, c));
    }
  }

  /** The same for a payment message that billing has published. */
  ghost predicate PaymentKeepsStep(before: ContractSide, after: ContractSide, k: nat, event: Message) {
    forall b: BillingSide | SagaInv(Saga(b, before)) && IsPaidRow(b.books.outbox, k) && b.books.outbox[k] == event ::
      SagaInv(Saga(b, after))
  }

  lemma ReceiptKeepsStep(side: ContractSide, k: nat, event: Message, v: Verification, landing: Landing)
    ensures PaymentKeepsStep(side, ReceivePaid(side, k, event, v, landing), k, event)
  {
    forall b: BillingSide | SagaInv(Saga(b, side)) && IsPaidRow(b.books.outbox, k) && b.books.outbox[k] == event
      ensures SagaInv(Saga(b, ReceivePaid(side, k, event, v, landing)))
    {
      SagaStepKeeps(Saga(b, side), PaidArrives(k, v, landing));
    }
  }

  // ---- Outcomes -------------------------------------------------------------

  /** Step `j` takes payment message `k` in, from its claim to the end. */
  predicate TakesIn(states: seq<Saga>, steps: seq<SagaStep>, j: nat, k: nat) {
    && j < |steps| && |states| == |steps| + 1
    && steps[j].PaidArrives? && steps[j].k == k && steps[j].landing.Completed?
    && IsPaidRow(states[j].Sent(), k) && k !in states[j].contracting.claims
  }

  /** At step `j` the contract is found active, or made so. */
  predicate ActiveAfter(states: seq<Saga>, j: nat, id: Id) {
    j + 1 < |states| && id in states[j + 1].contracting.contracts
    && states[j + 1].contracting.contracts[id].status.Active?
  }

  /** Report `m` says that the contract could not be activated as it was at step `j`. */
  predicate FailedAt(states: seq<Saga>, j: nat, id: Id, reports: seq<Message>, m: nat) {
    && j < |states| && id in states[j].contracting.contracts
    && IsFailure(reports, m) && reports[m].aggregate == id
    && reports[m].revision == states[j].contracting.contracts[id].revision
  }

  /** The delivery that gets a payment message processed. */
  lemma DeliveryServes(s: Saga, e: SagaStep, k: nat) returns (m: nat)
    requires SagaInv(s) && SagaCan(s, e) && k !in s.contracting.claims
    requires var t := SagaDo(s, e); k in t.contracting.claims && t.contracting.claims[k].Processed?
    ensures e.PaidArrives? && e.k == k && e.landing.Completed? && IsPaidRow(s.Sent(), k)
    ensures s.Sent()[k].contract.Some? && s.Sent()[k].contract.value in s.contracting.contracts
    ensures var t := SagaDo(s, e);
      var id := s.Sent()[k].contract.value;
      t.contracting.contracts[id].status.Active?
      || (IsFailure(t.contracting.reports, m) && t.contracting.reports[m].aggregate == id
          && t.contracting.reports[m].revision == s.contracting.contracts[id].revision)
  {
    m := 0;
    assert e.PaidArrives? && IsPaidRow(s.Sent(), k);
    var event := s.Sent()[k];
    assert AboutPaid(s.Bills(), event);
    var id := event.contract.value;
    var c := s.contracting.contracts[id];
    if !c.status.Active? && !FullySigned(c, e.v) {
      var report := FailureReport(id, c, event.invoice);
      if Published(s.contracting.reports, report) {
        m :| 0 <= m < |s.contracting.reports| && SameKey(s.contracting.reports[m], report);
      } else {
        m := |s.contracting.reports|;
      }
    }
  }

  lemma StoryStepGrows(states: seq<Saga>, steps: seq<SagaStep>, n: nat)
    requires Story(states, steps) && SagaInv(states[0]) && n < |steps|
    ensures states[n].Sent() <= states[n + 1].Sent()
    ensures states[n].contracting.reports <= states[n + 1].contracting.reports
    ensures forall k :: k in states[n].contracting.claims ==>
      k in states[n + 1].contracting.claims && states[n + 1].contracting.claims[k] == states[n].contracting.claims[k]
  {
    StoryGrows(states, steps, n, n + 1);
  }

  lemma StoryDelivery(states: seq<Saga>, steps: seq<SagaStep>, n: nat, k: nat) returns (m: nat)
    requires Story(states, steps) && SagaInv(states[0]) && n < |steps| && k !in states[n].contracting.claims
    requires k in states[n + 1].contracting.claims && states[n + 1].contracting.claims[k].Processed?
    ensures TakesIn(states, steps, n, k) && states[n].Sent()[k].contract.Some?
    ensures var id := states[n].Sent()[k].contract.value;
      ActiveAfter(states, n, id) || FailedAt(states, n, id, states[n + 1].contracting.reports, m)
  {
    StoryKeeps(states, steps, n);
    assert SagaCan(states[n], steps[n]) && states[n + 1] == SagaDo(states[n], steps[n]);
    m := DeliveryServes(states[n], steps[n], k);
    StoryGrows(states, steps, n, n + 1);
  }

  /** A payment message that was processed was taken in at some step, and there its contract was found or made
      active, or it was reported that it could not be. */
  lemma {:induction false} ProcessedMeansServed(states: seq<Saga>, steps: seq<SagaStep>, n: nat, k: nat)
    returns (j: nat, m: nat)
    requires Story(states, steps) && SagaInv(states[0]) && n <= |steps|
    requires states[0].contracting.claims == map[]
    requires k in states[n].contracting.claims && states[n].contracting.claims[k].Processed?
    ensures IsPaidRow(states[n].Sent(), k) && states[n].Sent()[k].contract.Some?
    ensures j < n && TakesIn(states, steps, j, k)
    ensures var id := states[n].Sent()[k].contract.value;
      ActiveAfter(states, j, id) || FailedAt(states, j, id, states[n].contracting.reports, m)
  {
    StoryStepGrows(states, steps, n - 1);
    if k in states[n - 1].contracting.claims {
      j, m := ProcessedMeansServed(states, steps, n - 1, k);
    } else {
      j := n - 1;
      m := StoryDelivery(states, steps, n - 1, k);
    }
  }

  /** Nothing is under way: every message has been taken in without a fault. */
  predicate Quiet(s: Saga) {
    && (forall k :: 0 <= k < |s.Sent()| && IsPaidRow(s.Sent(), k) ==>
          k in s.contracting.claims && s.contracting.claims[k].Processed?)
    && (forall m :: 0 <= m < |s.contracting.reports| && IsFailure(s.contracting.reports, m) ==>
          m in s.billing.claims && s.billing.claims[m].Processed?)
  }

  /** When everything has been delivered without a fault, every paid invoice with a contract has had its payment
      message taken in, and either its contract was active right then, or a refund stands in billing's outbox:
      for this invoice, or for another paid one of the contract, reported at the revision the contract had. */
  lemma QuietMeansAccounted(contracts: map<Id, Contract>, states: seq<Saga>, steps: seq<SagaStep>, n: nat,
                            invoice: Id, id: Id)
    returns (k: nat, j: nat, m: nat)
    requires Story(states, steps) && states[0] == NewSaga(contracts) && n <= |steps| && Quiet(states[n])
    requires PaidFor(states[n].Bills(), invoice, id)
    ensures k < |states[n].Sent()| && IsFirstHand(states[n].Sent()[k], invoice)
    ensures j < n && TakesIn(states, steps, j, k)
    ensures ActiveAfter(states, j, id)
      || (var reports := states[n].contracting.reports;
          && FailedAt(states, j, id, reports, m)
          && PaidFor(states[n].Bills(), reports[m].invoice, id)
          && Refunded(states[n].Sent(), reports[m].invoice))
  {
    NewSagaIsFine(contracts);
    StoryKeeps(states, steps, n);
    var s := states[n];
    assert Heralded(s.Sent(), invoice);
    k :| 0 <= k < |s.Sent()| && IsFirstHand(s.Sent()[k], invoice);
    assert IsPaidRow(s.Sent(), k) && AboutPaid(s.Bills(), s.Sent()[k]);
    j, m := ProcessedMeansServed(states, steps, n, k);
    if !ActiveAfter(states, j, id) {
      assert IsFailure(s.contracting.reports, m);
    }
  }

  /** So with one paid invoice to a contract the saga keeps its promise: active when the payment was taken in,
      or this invoice refunded. */
  lemma OneInvoiceIsSettled(contracts: map<Id, Contract>, states: seq<Saga>, steps: seq<SagaStep>, n: nat,
                            invoice: Id, id: Id)
    returns (k: nat, j: nat)
    requires Story(states, steps) && states[0] == NewSaga(contracts) && n <= |steps| && Quiet(states[n])
    requires PaidFor(states[n].Bills(), invoice, id)
    requires forall i :: i in states[n].Bills() && PaidFor(states[n].Bills(), i, id) ==> i == invoice
    ensures k < |states[n].Sent()| && IsFirstHand(states[n].Sent()[k], invoice)
    ensures j < n && TakesIn(states, steps, j, k)
    ensures ActiveAfter(states, j, id) || Refunded(states[n].Sent(), invoice)
  {
    var m: nat;
    k, j, m := QuietMeansAccounted(contracts, states, steps, n, invoice, id);
  }

  /** Whenever a report is taken in, the invoice it names is there and paid: the handler never has to look for
      another. */
  lemma ReportedInvoiceIsThere(contracts: map<Id, Contract>, states: seq<Saga>, steps: seq<SagaStep>, n: nat, m: nat,
                               other: Option<Id>)
    requires Story(states, steps) && states[0] == NewSaga(contracts) && n <= |steps|
    requires IsFailure(states[n].contracting.reports, m)
    ensures var report := states[n].contracting.reports[m];
      && PaidFor(states[n].Bills(), report.invoice, report.aggregate)
      && RefundNamed(states[n].billing.books, report.invoice, other) == Refund(states[n].billing.books, report.invoice)
  {
    NewSagaIsFine(contracts);
    StoryKeeps(states, steps, n);
    NamedInvoiceIsThere(states[n], m, other);
  }

  /** And no refund is ever requested but for a paid invoice whose contract was reported. */
  lemma RefundsAreReported(contracts: map<Id, Contract>, states: seq<Saga>, steps: seq<SagaStep>, n: nat, invoice: Id)
    returns (m: nat)
    requires Story(states, steps) && states[0] == NewSaga(contracts) && n <= |steps|
    requires Refunded(states[n].Sent(), invoice)
    ensures m < |states[n].contracting.reports|
    ensures var report := states[n].contracting.reports[m];
      && report.kind.ActivationFailed? && report.invoice == invoice
      && PaidFor(states[n].Bills(), invoice, report.aggregate)
  {
    NewSagaIsFine(contracts);
    StoryKeeps(states, steps, n);
    var s := states[n];
    var k :| 0 <= k < |s.Sent()| && s.Sent()[k].kind.RefundRequested? && s.Sent()[k].aggregate == invoice;
    var reports := s.contracting.reports;
    m :| 0 <= m < |reports| && IsFailure(reports, m) && reports[m].invoice == invoice;
  }

  /** With several paid invoices the promise fails. A failure report carries the contract's unchanged revision,
      so an unsigned contract's paid invoice is reported exactly when the contract has not reported at this
      revision yet, unless it had a report of its own before. */
  lemma ReportedExactly(s: Saga, k: nat, v: Verification)
    requires SagaInv(s) && IsPaidRow(s.Sent(), k) && k !in s.contracting.claims && s.Sent()[k].contract.Some?
    requires s.Sent()[k].contract.value in s.contracting.contracts
    requires var c := s.contracting.contracts[s.Sent()[k].contract.value]; !c.status.Active? && !FullySigned(c, v)
    ensures var id := s.Sent()[k].contract.value;
      var invoice := s.Sent()[k].invoice;
      Reported(SagaDo(s, PaidArrives(k, v, Completed)).contracting.reports, invoice) <==>
        Reported(s.contracting.reports, invoice)
        || !Published(s.contracting.reports, FailureReport(id, s.contracting.contracts[id], invoice))
  {
    var id := s.Sent()[k].contract.value;
    var invoice := s.Sent()[k].invoice;
    var before := s.contracting.reports;
    var report := FailureReport(id, s.contracting.contracts[id], invoice);
    var after := SagaDo(s, PaidArrives(k, v, Completed)).contracting.reports;
    if !Published(before, report) {
      assert after[|before|] == report && IsFailure(after, |before|);
    } else {
      assert after == before;
    }
    if Reported(before, invoice) {
      ReportedStays(before, after, invoice);
    }
  }

  /** The paid invoice has no report, though one stands at its contract's present revision. */
  predicate Eclipsed(s: Saga, invoice: Id, id: Id, c: Contract) {
    && PaidFor(s.Bills(), invoice, id)
    && Published(s.contracting.reports, FailureReport(id, c, invoice))
    && !Reported(s.contracting.reports, invoice)
  }

  lemma EclipsedDelivery(s: Saga, e: SagaStep, invoice: Id, id: Id, c: Contract)
    requires SagaInv(s) && e.PaidArrives? && Eclipsed(s, invoice, id, c)
    requires id in s.contracting.contracts && s.contracting.contracts[id] == c
    ensures Eclipsed(SagaDo(s, e), invoice, id, c)
  {
    var before, after := s.contracting.reports, SagaDo(s, e).contracting.reports;
    if after != before {
      var event := s.Sent()[e.k];
      assert AboutPaid(s.Bills(), event);
      PaidEffectReports(s.contracting, event, e.v);
      var m :| ReportOf(s.contracting, event, m) && !Published(before, m) && after == before + [m];
      EclipsedExtends(before, m, FailureReport(id, c, invoice));
    }
  }

  lemma EclipsedExtends(before: seq<Message>, m: Message, report: Message)
    requires Published(before, report) && !Reported(before, report.invoice)
    requires m.kind.ActivationFailed? ==> m.invoice != report.invoice
    ensures Published(before + [m], report) && !Reported(before + [m], report.invoice)
  {
    var after := before + [m];
    var j :| 0 <= j < |before| && SameKey(before[j], report);
    assert after[j] == before[j];
    forall i: nat | IsFailure(after, i) ensures after[i].invoice != report.invoice {
      if i < |before| {
        assert IsFailure(before, i);
      }
    }
  }

  lemma EclipsedStep(s: Saga, e: SagaStep, invoice: Id, id: Id, c: Contract)
    requires SagaInv(s) && SagaCan(s, e) && Eclipsed(s, invoice, id, c)
    requires id in s.contracting.contracts && s.contracting.contracts[id] == c
    ensures Eclipsed(SagaDo(s, e), invoice, id, c)
  {
    if e.PaidArrives? {
      EclipsedDelivery(s, e, invoice, id, c);
    } else {
      SagaStepKeeps(s, e);
    }
  }

  predicate Stands(s: Saga, id: Id, c: Contract) {
    id in s.contracting.contracts && s.contracting.contracts[id] == c
  }

  lemma {:induction false} EclipsedStays(states: seq<Saga>, steps: seq<SagaStep>, j: nat, k: nat,
                                         invoice: Id, id: Id, c: Contract)
    requires Story(states, steps) && SagaInv(states[0]) && j <= k <= |steps|
    requires forall i :: j <= i <= k ==> Stands(states[i], id, c)
    requires Eclipsed(states[j], invoice, id, c)
    ensures Eclipsed(states[k], invoice, id, c)
    decreases k
  {
    if j < k {
      EclipsedStays(states, steps, j, k - 1, invoice, id, c);
      StoryKeeps(states, steps, k - 1);
      EclipsedStep(states[k - 1], steps[k - 1], invoice, id, c);
    }
  }

  /** Left unreported it stays unrefunded for as long as the contract is left as it is, however often its
      payment is republished and whatever else happens in billing. */
  lemma EclipsedIsNeverRefunded(states: seq<Saga>, steps: seq<SagaStep>, j: nat, k: nat,
                                invoice: Id, id: Id, c: Contract)
    requires Story(states, steps) && SagaInv(states[0]) && j <= k <= |steps|
    requires forall i :: j <= i <= k ==> Stands(states[i], id, c)
    requires Eclipsed(states[j], invoice, id, c)
    ensures Eclipsed(states[k], invoice, id, c) && !Refunded(states[k].Sent(), invoice)
  {
    EclipsedStays(states, steps, j, k, invoice, id, c);
    StoryKeeps(states, steps, k);
  }

  /** A claim is for ever: a message whose handler failed or crashed is never looked at again, though the
      failure was marked so that it could be retried. */
  lemma FailedDeliveryIsLast(states: seq<Saga>, steps: seq<SagaStep>, j: nat, k: nat, again: Verification,
                             retried: Landing)
    requires Story(states, steps) && SagaInv(states[0]) && j < k <= |steps|
    requires steps[j].PaidArrives? && IsPaidRow(states[j].Sent(), steps[j].k)
    requires steps[j].k !in states[j].contracting.claims && !steps[j].landing.Completed?
    ensures var message := steps[j].k;
      && SagaDo(states[k], PaidArrives(message, again, retried)) == states[k]
      && message in states[k].contracting.claims && !states[k].contracting.claims[message].Processed?
  {
    assert states[j + 1] == SagaDo(states[j], steps[j]);
    StoryGrows(states, steps, j + 1, k);
  }

  // ---- The forgotten invoice ----------------------------------------------------

  function FineBill(id: Id, prefix: Id): Bill {
    Bill(1, Some(2), Some(id), Some(prefix), Unpaid, 1)
  }

  function FineRow(invoice: Id, id: Id): Message {
    Message(FineInvoiceCreated, invoice, 1, Some(id), invoice, false)
  }

  function PaidRow(invoice: Id, id: Id): Message {
    Message(InvoicePaid, invoice, 2, Some(id), invoice, false)
  }

  /** Two fines of one contract, imposed one after the other and then paid at the desk. */
  function FineBooks(first: Id, second: Id, id: Id, at: Time, made: nat, paid: nat): Books
    requires first != second && made <= 2 && paid <= made
  {
    var bill1 := if paid >= 1 then Paying(FineBill(id, 10)) else FineBill(id, 10);
    var bill2 := if paid == 2 then Paying(FineBill(id, 11)) else FineBill(id, 11);
    Books(if made == 0 then map[] else if made == 1 then map[first := bill1] else map[first := bill1, second := bill2],
          [CashPayment(first, None, at), CashPayment(second, None, at)][..paid],
          [],
          [FineRow(first, id), FineRow(second, id)][..made] + [PaidRow(first, id), PaidRow(second, id)][..paid],
          [])
  }

  lemma FinesAreMade(first: Id, second: Id, id: Id, at: Time)
    requires first != second
    ensures var none := FineBooks(first, second, id, at, 0, 0);
      var one := FineBooks(first, second, id, at, 1, 0);
      && none == NO_BOOKS
      && Possible(none, Fine(first, 1, 2, Some(id), 10)) && Do(none, Fine(first, 1, 2, Some(id), 10)) == one
      && Possible(one, Fine(second, 1, 2, Some(id), 11))
      && Do(one, Fine(second, 1, 2, Some(id), 11)) == FineBooks(first, second, id, at, 2, 0)
  {
    var one := FineBooks(first, second, id, at, 1, 0);
    assert one.outbox == [FineRow(first, id)];
    assert !Published(one.outbox, FineRow(second, id));
  }

  lemma FinesArePaid(first: Id, second: Id, id: Id, at: Time)
    requires first != second
    ensures var one := FineBooks(first, second, id, at, 2, 1);
      && Do(FineBooks(first, second, id, at, 2, 0), CashDesk(first, 1, None, at)) == one
      && Do(one, CashDesk(second, 1, None, at)) == FineBooks(first, second, id, at, 2, 2)
  {
    var fined := FineBooks(first, second, id, at, 2, 0);
    var one := FineBooks(first, second, id, at, 2, 1);
    assert !Published(fined.outbox, PaidRow(first, id));
    assert Do(fined, CashDesk(first, 1, None, at)).bills == one.bills;
    assert !Published(one.outbox, PaidRow(second, id));
    assert FailAll(one.payments, second, Pending) == one.payments;
    assert Do(one, CashDesk(second, 1, None, at)).bills == FineBooks(first, second, id, at, 2, 2).bills;
  }

  predicate PaidTwice(books: Books, first: Id, second: Id, id: Id) {
    && |books.outbox| == 4
    && books.outbox[..2] == [FineRow(first, id), FineRow(second, id)]
    && books.outbox[2..] == [PaidRow(first, id), PaidRow(second, id)]
    && PaidFor(books.bills, first, id) && PaidFor(books.bills, second, id) && books.bills[first].revision == 2
  }

  function BeforeDelivery(books: Books, id: Id, c: Contract): Saga {
    Saga(BillingSide(books, map[]), ContractSide(map[id := c], map[], []))
  }

  function AfterDelivery(books: Books, id: Id, c: Contract, first: Id): Saga {
    Saga(BillingSide(books, map[]),
         ContractSide(map[id := c], map[2 := Processed, 3 := Processed], [FailureReport(id, c, first)]))
  }

  /** Both payment messages find the contract unsigned; the second finds the first one's report in its way. */
  lemma SecondReportIsDropped(books: Books, first: Id, second: Id, id: Id, c: Contract, v: Verification,
                              w: Verification)
    requires !c.status.Active? && !FullySigned(c, v) && !FullySigned(c, w) && PaidTwice(books, first, second, id)
    ensures var s1 := SagaDo(BeforeDelivery(books, id, c), PaidArrives(2, v, Completed));
      SagaDo(s1, PaidArrives(3, w, Completed))
        == AfterDelivery(books, id, c, first)
      && s1.contracting.contracts == map[id := c]
  {
    assert books.outbox[2] == books.outbox[2..][0] && books.outbox[3] == books.outbox[2..][1];
    var s1 := SagaDo(BeforeDelivery(books, id, c), PaidArrives(2, v, Completed));
    assert s1.contracting.reports == [FailureReport(id, c, first)];
    assert SameKey(s1.contracting.reports[0], FailureReport(id, c, second));
    var s2 := SagaDo(s1, PaidArrives(3, w, Completed));
    assert s2.contracting.claims == map[2 := Processed, 3 := Processed];
  }

  /** The one report is taken in: all is quiet, and nobody has heard of the second invoice. */
  lemma OnlyFirstIsRefunded(books: Books, first: Id, second: Id, id: Id, c: Contract)
    requires first != second && PaidTwice(books, first, second, id)
    ensures var s := AfterDelivery(books, id, c, first);
      var e := ReportArrives(0, Some(first), Completed);
      var t := SagaDo(s, e);
      && SagaCan(s, e) && Quiet(t) && t.contracting == s.contracting
      && PaidFor(t.Bills(), first, id) && PaidFor(t.Bills(), second, id)
      && Refunded(t.Sent(), first) && !Refunded(t.Sent(), second)
  {
    assert forall k :: 0 <= k < 2 ==> books.outbox[k] == books.outbox[..2][k];
    assert forall k :: 2 <= k < 4 ==> books.outbox[k] == books.outbox[2..][k - 2];
    var refund := Message(RefundRequested, first, 3, Some(id), first, false);
    assert !Published(books.outbox, refund);
    assert Refund(books, first).outbox == books.outbox + [refund];
    assert (books.outbox + [refund])[4] == refund;
  }

  /** The fines are imposed while the contract is active and paid after its termination. */
  function FinesPaid(first: Id, second: Id, id: Id, c: Contract, at: Time): seq<SagaStep> {
    [BillingStep(Fine(first, 1, 2, Some(id), 10)), BillingStep(Fine(second, 1, 2, Some(id), 11)),
     ContractMoves(id, Acted(c, Terminate)),
     BillingStep(CashDesk(first, 1, None, at)), BillingStep(CashDesk(second, 1, None, at))]
  }

  function Deliveries(first: Id, v: Verification, w: Verification): seq<SagaStep> {
    [PaidArrives(2, v, Completed), PaidArrives(3, w, Completed), ReportArrives(0, Some(first), Completed)]
  }

  lemma FinesPaidRuns(first: Id, second: Id, id: Id, c: Contract, at: Time) returns (states: seq<Saga>)
    requires first != second && c.status.Active?
    ensures Story(states, FinesPaid(first, second, id, c, at)) && states[0] == NewSaga(map[id := c])
    ensures states[5] == BeforeDelivery(FineBooks(first, second, id, at, 2, 2), id, Acted(c, Terminate))
  {
    var ended := Acted(c, Terminate);
    states := [BeforeDelivery(FineBooks(first, second, id, at, 0, 0), id, c),
               BeforeDelivery(FineBooks(first, second, id, at, 1, 0), id, c),
               BeforeDelivery(FineBooks(first, second, id, at, 2, 0), id, c),
               BeforeDelivery(FineBooks(first, second, id, at, 2, 0), id, ended),
               BeforeDelivery(FineBooks(first, second, id, at, 2, 1), id, ended),
               BeforeDelivery(FineBooks(first, second, id, at, 2, 2), id, ended)];
    FinesAreMade(first, second, id, at);
    FinesArePaid(first, second, id, at);
    assert map[id := c][id := ended] == map[id := ended];
  }

  lemma DeliveriesRun(books: Books, first: Id, second: Id, id: Id, c: Contract, v: Verification, w: Verification)
    returns (states: seq<Saga>)
    requires !c.status.Active? && !FullySigned(c, v) && !FullySigned(c, w) && PaidTwice(books, first, second, id)
    requires SagaCan(AfterDelivery(books, id, c, first), Deliveries(first, v, w)[2])
    ensures Story(states, Deliveries(first, v, w)) && states[0] == BeforeDelivery(books, id, c)
    ensures states[1].contracting.contracts == map[id := c] && states[2] == AfterDelivery(books, id, c, first)
  {
    var steps := Deliveries(first, v, w);
    var s0 := BeforeDelivery(books, id, c);
    var s1 := SagaDo(s0, steps[0]);
    SecondReportIsDropped(books, first, second, id, c, v, w);
    var s2 := AfterDelivery(books, id, c, first);
    states := [s0, s1, s2, SagaDo(s2, steps[2])];
  }

  lemma StoriesJoin(states: seq<Saga>, steps: seq<SagaStep>, later: seq<Saga>, more: seq<SagaStep>)
    requires Story(states, steps) && Story(later, more) && states[|steps|] == later[0]
    ensures Story(states + later[1..], steps + more)
    ensures forall j :: 0 <= j <= |more| ==> (states + later[1..])[|steps| + j] == later[j]
  {
    var all, whole := states + later[1..], steps + more;
    assert forall j :: 0 <= j <= |more| ==> all[|steps| + j] == later[j];
    forall i {:trigger whole[i]} | 0 <= i < |whole|
      ensures SagaCan(all[i], whole[i]) && all[i + 1] == SagaDo(all[i], whole[i])
    {
      if i < |steps| {
        assert whole[i] == steps[i];
      } else {
        assert whole[i] == more[i - |steps|];
      }
    }
  }

  predicate SecondForgotten(s: Saga, first: Id, second: Id, id: Id) {
    && PaidFor(s.Bills(), first, id) && PaidFor(s.Bills(), second, id) && Quiet(s)
    && Refunded(s.Sent(), first) && !Refunded(s.Sent(), second)
  }

  predicate Unmoved(states: seq<Saga>, contracts: map<Id, Contract>, from: nat) {
    forall j :: from <= j < |states| ==> states[j].contracting.contracts == contracts
  }

  lemma DeliveriesForget(books: Books, first: Id, second: Id, id: Id, c: Contract, v: Verification, w: Verification)
    returns (states: seq<Saga>)
    requires !c.status.Active? && !FullySigned(c, v) && !FullySigned(c, w)
    requires first != second && PaidTwice(books, first, second, id)
    ensures Story(states, Deliveries(first, v, w)) && states[0] == BeforeDelivery(books, id, c)
    ensures Unmoved(states, map[id := c], 0) && SecondForgotten(states[3], first, second, id)
  {
    OnlyFirstIsRefunded(books, first, second, id, c);
    states := DeliveriesRun(books, first, second, id, c, v, w);
    assert states[3] == SagaDo(states[2], Deliveries(first, v, w)[2]);
  }

  /** Two fines of a terminated contract, both paid. If neither time both signatures are found, be it that the
      signature service does not answer, the messages are all delivered and processed, the contract is not active
      again, the first fine is refunded and the second forgotten. Were they found, the payment would make the
      terminated contract active again. */
  lemma SecondInvoiceForgotten(first: Id, second: Id, id: Id, c: Contract, at: Time, v: Verification,
                               w: Verification) returns (states: seq<Saga>)
    requires first != second && c.status.Active? && !FullySigned(c, v) && !FullySigned(c, w)
    ensures Story(states, FinesPaid(first, second, id, c, at) + Deliveries(first, v, w))
    ensures states[0] == NewSaga(map[id := c]) && Unmoved(states, map[id := Acted(c, Terminate)], 5)
    ensures SecondForgotten(states[8], first, second, id)
  {
    var before := FinesPaidRuns(first, second, id, c, at);
    var later := DeliveriesForget(FineBooks(first, second, id, at, 2, 2), first, second, id, Acted(c, Terminate),
                                  v, w);
    StoriesJoin(before, FinesPaid(first, second, id, c, at), later, Deliveries(first, v, w));
    states := before + later[1..];
    assert forall j :: 0 <= j <= 3 ==> states[5 + j] == later[j];
  }
}
