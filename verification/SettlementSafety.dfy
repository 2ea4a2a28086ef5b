/** What every history of invoices and payments keeps: paid is final, nobody pays twice, one credit row,
    one payment message, one notification. */
module SettlementSafety {
  import opened Sums
  import opened Ledger
  import opened Outbox
  import opened Settlement

  // The `Late` steps are transactions of handlers whose look at the invoices is out of date. `LateDelete` removes
  // the invoices it has read to be unpaid; `LatePrepayment` and `LateFine` found no invoice for their contract or
  // case; `LateRevive` and `LateLink` are the writes of a QR request that saw its invoice unpaid and has waited for
  // PayOS since.
  datatype Step =
    | Prepayment(invoice: Id, provider: Id, customer: Id, contract: Id)
    | Fine(invoice: Id, provider: Id, customer: Id, agreement: Option<Id>, prefix: Id)
    | FallsDue(invoice: Id)
    | WebhookCall(link: Id, cached: Option<Id>, report: Report)
    | CheckLink(invoice: Id, link: Id, report: Report)
    | LateSettle(invoice: Id, link: Id, at: Time, amount: Option<int>)
    | LateFail(invoice: Id, link: Id)
    | LateDelete(read: set<Id>)
    | LatePrepayment(invoice: Id, provider: Id, customer: Id, contract: Id)
    | LateFine(invoice: Id, provider: Id, customer: Id, agreement: Option<Id>, prefix: Id)
    | LateRevive(invoice: Id, link: Id)
    | LateLink(invoice: Id, link: Id)
    | QrRequest(invoice: Id, customer: Id, report: Report, saved: bool, link: Id)
    | CashDesk(invoice: Id, provider: Id, key: Option<Id>, at: Time)
    | ContractGone(contract: Id)
    | ServiceCancelled(contract: Id)
    | ActivationFails(invoice: Id)
    | Reconcile(invoice: Id, seen: int)

  predicate HasTransfer(payments: seq<Payment>, invoice: Id) {
    exists k :: 0 <= k < |payments| && payments[k].invoice == invoice && payments[k].paidBy.Transfer?
  }

  /** New invoices get new identifiers; the maintenance worker read the invoice when it was paid; and the lock on
      an invoice lets no other QR request make a link for it in between. */
  ghost predicate Possible(b: Books, s: Step) {
    match s
    case Prepayment(invoice, _, _, _) => Unused(b, invoice)
    case LatePrepayment(invoice, _, _, _) => Unused(b, invoice)
    case Fine(invoice, _, _, _, _) => Unused(b, invoice)
    case LateFine(invoice, _, _, _, _) => Unused(b, invoice)
    case LateLink(invoice, _) => !HasTransfer(b.payments, invoice)
    case Reconcile(invoice, seen) => invoice in b.bills && b.bills[invoice].status.Paid? && 1 <= seen
    case _ => true
  }

  /** None of the invoices a late deletion has read has been paid since. */
  predicate Spares(b: Books, s: Step) {
    s.LateDelete? ==> forall i :: i in s.read ==> !IsPaid(b.bills, i)
  }

  function Do(b: Books, s: Step): Books {
    match s
    case Prepayment(invoice, provider, customer, contract) => Prepay(b, invoice, provider, customer, contract)
    case Fine(invoice, provider, customer, contract, prefix) =>
      ImposeFine(b, invoice, provider, customer, contract, prefix)
    case FallsDue(invoice) =>
      if invoice in b.bills && b.bills[invoice].status.Unpaid?
      then b.(bills := b.bills[invoice := b.bills[invoice].(status := Overdue)])
      else b
    case WebhookCall(link, cached, report) => Webhook(b, link, cached, report)
    case CheckLink(invoice, link, report) => Check(b, invoice, link, report)
    case LateSettle(invoice, link, at, amount) => MarkPaid(b, invoice, link, at, amount)
    case LateFail(invoice, link) => MarkFailed(b, invoice, link)
    case LateDelete(read) => Without(b, read)
    case LatePrepayment(invoice, provider, customer, contract) => BillContract(b, invoice, provider, customer, contract)
    case LateFine(invoice, provider, customer, contract, prefix) =>
      BillFine(b, invoice, provider, customer, contract, prefix)
    case LateRevive(invoice, link) => ReviveLink(b, invoice, link)
    case LateLink(invoice, link) => Linked(b, invoice, link)
    case QrRequest(invoice, customer, report, saved, link) => CreateQr(b, invoice, customer, report, saved, link)
    case CashDesk(invoice, provider, key, at) => PayCash(b, invoice, provider, key, at)
    case ContractGone(contract) => DropUnpaid(b, contract)
    case ServiceCancelled(contract) => CancelPrepayment(b, contract)
    case ActivationFails(invoice) => Refund(b, invoice)
    case Reconcile(invoice, seen) => Republish(b, invoice, seen)
  }

  // ---- The invariant --------------------------------------------------------

  predicate IsPaid(bills: map<Id, Bill>, invoice: Id) {
    invoice in bills && bills[invoice].status.Paid?
  }

  predicate PaymentFine(bills: map<Id, Bill>, p: Payment) {
    && p.invoice in bills
    && (p.paidBy.Transfer? ==> p.key.Some? && p.key.value.PayOsLink?)
    && (p.paidBy.Cash? ==> p.key.Some? ==> p.key.value.CashKey?)
    && (p.paidBy.Cash? || p.status.Success? ==> IsPaid(bills, p.invoice))
  }

  /** Neither a key nor, within an invoice, a payment method is used twice. */
  predicate Apart(p: Payment, q: Payment) {
    (p.key.Some? ==> p.key != q.key) && (p.invoice == q.invoice ==> p.paidBy != q.paidBy)
  }

  predicate PaymentsFine(bills: map<Id, Bill>, payments: seq<Payment>) {
    && (forall k :: 0 <= k < |payments| ==> PaymentFine(bills, payments[k]))
    && (forall j, k :: 0 <= j < k < |payments| ==> Apart(payments[j], payments[k]))
  }

  /** Only money that came through PayOS is credited, once per invoice. */
  predicate IncomeFine(bills: map<Id, Bill>, payments: seq<Payment>, ledger: seq<Row>) {
    && UniqueReferences(ledger)
    && (forall r :: 0 <= r < |ledger| && ledger[r].reference.InvoicePayment? ==>
          IsPaid(bills, ledger[r].reference.paid) && HasTransfer(payments, ledger[r].reference.paid))
    && (forall k :: 0 <= k < |payments| && payments[k].paidBy.Transfer? && payments[k].status.Success? ==>
          HasReference(ledger, InvoicePayment(payments[k].invoice)))
  }

  predicate IsFirstHand(m: Message, invoice: Id) {
    m.kind.InvoicePaid? && m.aggregate == invoice && !m.reconciled
  }

  predicate Heralded(outbox: seq<Message>, invoice: Id) {
    exists k :: 0 <= k < |outbox| && IsFirstHand(outbox[k], invoice)
  }

  /** Exactly one first-hand payment message for a paid invoice with a contract, none for an unpaid one. */
  predicate HeraldsFine(bills: map<Id, Bill>, outbox: seq<Message>) {
    && (forall k :: 0 <= k < |outbox| && outbox[k].kind.InvoicePaid? ==> IsPaid(bills, outbox[k].aggregate))
    && (forall j, k :: 0 <= j < k < |outbox| && IsFirstHand(outbox[j], outbox[j].aggregate) ==>
          !IsFirstHand(outbox[k], outbox[j].aggregate))
    && (forall i :: i in bills && IsPaid(bills, i) && bills[i].contract.Some? ==> Heralded(outbox, i))
  }

  predicate NotifiedFine(bills: map<Id, Bill>, notified: seq<Id>) {
    Distinct(notified) && forall k :: 0 <= k < |notified| ==> IsPaid(bills, notified[k])
  }

  predicate Sound(b: Books) {
    && PaymentsFine(b.bills, b.payments)
    && IncomeFine(b.bills, b.payments, b.ledger)
    && HeraldsFine(b.bills, b.outbox)
    && NotifiedFine(b.bills, b.notified)
  }

  /** Paid invoices stay, paid and unchanged but for the revision. */
  predicate PaidStay(before: map<Id, Bill>, after: map<Id, Bill>) {
    forall i :: i in before && IsPaid(before, i) ==>
      IsPaid(after, i) && after[i] == before[i].(revision := after[i].revision)
  }

  predicate Keeps(b: Books, after: Books) {
    Sound(after) && PaidStay(b.bills, after.bills)
  }

  // ---- Payments -------------------------------------------------------------

  /** Same payments, but for status and date. */
  predicate SamePayments(before: seq<Payment>, after: seq<Payment>) {
    && |before| == |after|
    && forall k :: 0 <= k < |before| ==>
      after[k] == before[k].(status := after[k].status, paidAt := after[k].paidAt)
  }

  predicate MoreBills(before: map<Id, Bill>, after: map<Id, Bill>) {
    PaidStay(before, after) && forall i :: i in before ==> i in after
  }

  lemma PaymentsKept(before: map<Id, Bill>, after: map<Id, Bill>, payments: seq<Payment>, updated: seq<Payment>)
    requires PaymentsFine(before, payments) && MoreBills(before, after) && SamePayments(payments, updated)
    requires forall k :: 0 <= k < |updated| && updated[k].status.Success? && !payments[k].status.Success? ==>
      IsPaid(after, updated[k].invoice)
    ensures PaymentsFine(after, updated)
  {
    forall k | 0 <= k < |updated| ensures PaymentFine(after, updated[k]) {
      assert PaymentFine(before, payments[k]);
    }
    forall j, k | 0 <= j < k < |updated| ensures Apart(updated[j], updated[k]) {
      assert Apart(payments[j], payments[k]);
    }
  }

  lemma PaymentAdded(bills: map<Id, Bill>, payments: seq<Payment>, p: Payment)
    requires PaymentsFine(bills, payments) && PaymentFine(bills, p)
    requires forall k :: 0 <= k < |payments| ==> Apart(payments[k], p)
    ensures PaymentsFine(bills, payments + [p])
  {
    var after := payments + [p];
    forall j, k | 0 <= j < k < |after| ensures Apart(after[j], after[k]) {
      if k < |payments| {
        assert Apart(payments[j], payments[k]);
      }
    }
  }

  lemma IncomeKept(before: map<Id, Bill>, after: map<Id, Bill>, payments: seq<Payment>, updated: seq<Payment>,
                   ledger: seq<Row>)
    requires IncomeFine(before, payments, ledger) && MoreBills(before, after)
    requires |payments| <= |updated| && SamePayments(payments, updated[..|payments|])
    requires forall k :: 0 <= k < |updated| && updated[k].status.Success? && updated[k].paidBy.Transfer? ==>
      k < |payments| && payments[k].status.Success?
    ensures IncomeFine(after, updated, ledger)
  {
    forall r | 0 <= r < |ledger| && ledger[r].reference.InvoicePayment?
      ensures IsPaid(after, ledger[r].reference.paid) && HasTransfer(updated, ledger[r].reference.paid)
    {
      var i := ledger[r].reference.paid;
      assert i in before && HasTransfer(payments, i);
      var k :| 0 <= k < |payments| && payments[k].invoice == i && payments[k].paidBy.Transfer?;
      assert updated[..|payments|][k] == updated[k];
    }
    forall k | 0 <= k < |updated| && updated[k].paidBy.Transfer? && updated[k].status.Success?
      ensures HasReference(ledger, InvoicePayment(updated[k].invoice))
    {
      assert updated[..|payments|][k] == updated[k];
      assert payments[k].paidBy.Transfer? && payments[k].status.Success?;
    }
  }

  lemma IncomeUpserted(b: Books, invoice: Id, link: Id, paidAt: Time, amount: Option<int>)
    requires Sound(b) && Payable(b, invoice, link, amount)
    ensures var after := MarkPaid(b, invoice, link, paidAt, amount);
      IncomeFine(after.bills, after.payments, after.ledger)
  {
    var after := MarkPaid(b, invoice, link, paidAt, amount);
    var found := FindByKey(b.payments, PayOsLink(link)).value;
    assert PaymentFine(b.bills, b.payments[found]);
    assert HasTransfer(after.payments, invoice) by {
      assert after.payments[found].invoice == invoice && after.payments[found].paidBy.Transfer?;
    }
    assert forall r :: 0 <= r < |b.ledger| ==> after.ledger[r].reference == b.ledger[r].reference;
    assert UniqueReferences(after.ledger);
    forall r | 0 <= r < |after.ledger| && after.ledger[r].reference.InvoicePayment?
      ensures IsPaid(after.bills, after.ledger[r].reference.paid)
      ensures HasTransfer(after.payments, after.ledger[r].reference.paid)
    {
      var i := after.ledger[r].reference.paid;
      if i != invoice {
        assert HasTransfer(b.payments, i);
        var k :| 0 <= k < |b.payments| && b.payments[k].invoice == i && b.payments[k].paidBy.Transfer?;
        assert after.payments[k] == b.payments[k];
      }
    }
    assert HasReference(after.ledger, InvoicePayment(invoice)) by {
      if HasReference(b.ledger, InvoicePayment(invoice)) {
        var r :| 0 <= r < |b.ledger| && b.ledger[r].reference == InvoicePayment(invoice);
        assert after.ledger[r].reference == InvoicePayment(invoice);
      } else {
        assert after.ledger[|b.ledger|].reference == InvoicePayment(invoice);
      }
    }
    forall k | 0 <= k < |after.payments| && after.payments[k].paidBy.Transfer? && after.payments[k].status.Success?
      ensures HasReference(after.ledger, InvoicePayment(after.payments[k].invoice))
    {
      if k != found {
        var r :| 0 <= r < |b.ledger| && b.ledger[r].reference == InvoicePayment(b.payments[k].invoice);
        assert after.ledger[r].reference == b.ledger[r].reference;
      }
    }
  }

  // ---- Messages -------------------------------------------------------------

  lemma HeraldsAppend(bills: map<Id, Bill>, outbox: seq<Message>, m: Message)
    requires HeraldsFine(bills, outbox)
    requires m.kind.InvoicePaid? ==> m.reconciled && IsPaid(bills, m.aggregate)
    ensures HeraldsFine(bills, PublishLocal(outbox, m))
  {
    forall i | i in bills && IsPaid(bills, i) && bills[i].contract.Some? ensures Heralded(PublishLocal(outbox, m), i) {
      var k :| 0 <= k < |outbox| && IsFirstHand(outbox[k], i);
      assert PublishLocal(outbox, m)[k] == outbox[k];
    }
  }

  lemma HeraldsRebilled(before: map<Id, Bill>, after: map<Id, Bill>, outbox: seq<Message>)
    requires HeraldsFine(before, outbox) && PaidStay(before, after)
    requires forall i :: i in after && IsPaid(after, i) ==> IsPaid(before, i)
    ensures HeraldsFine(after, outbox)
  {
    forall k | 0 <= k < |outbox| && outbox[k].kind.InvoicePaid? ensures IsPaid(after, outbox[k].aggregate) {
      assert outbox[k].aggregate in before;
    }
  }

  /** The one moment an invoice turns paid is the one moment its payment is announced. */
  lemma HeraldsPay(bills: map<Id, Bill>, outbox: seq<Message>, invoice: Id)
    requires HeraldsFine(bills, outbox) && invoice in bills && !bills[invoice].status.Paid?
    ensures HeraldsFine(bills[invoice := Paying(bills[invoice])], Announced(outbox, invoice, bills[invoice]))
  {
    var bill := bills[invoice];
    var m := PaidMessage(invoice, bill);
    var after := Announced(outbox, invoice, bill);
    var paid := bills[invoice := Paying(bill)];
    assert forall k :: 0 <= k < |outbox| && outbox[k].kind.InvoicePaid? ==> outbox[k].aggregate != invoice;
    assert !Published(outbox, m);
    forall i | i in paid && IsPaid(paid, i) && paid[i].contract.Some? ensures Heralded(after, i) {
      if i == invoice {
        assert IsFirstHand(after[|outbox|], invoice);
      } else {
        var k :| 0 <= k < |outbox| && IsFirstHand(outbox[k], i);
        assert after[k] == outbox[k];
      }
    }
  }

  lemma PayingStays(bills: map<Id, Bill>, invoice: Id)
    requires invoice in bills && !bills[invoice].status.Paid?
    ensures MoreBills(bills, bills[invoice := Paying(bills[invoice])])
  {
  }

  // ---- The payments over every step -------------------------------------------

  lemma MarkPaidPayments(b: Books, invoice: Id, link: Id, paidAt: Time, amount: Option<int>)
    requires PaymentsFine(b.bills, b.payments)
    ensures var after := MarkPaid(b, invoice, link, paidAt, amount); PaymentsFine(after.bills, after.payments)
  {
    var after := MarkPaid(b, invoice, link, paidAt, amount);
    if Payable(b, invoice, link, amount) {
      assert PaymentFine(b.bills, b.payments[FindByKey(b.payments, PayOsLink(link)).value]);
      PaymentsKept(b.bills, after.bills, b.payments, after.payments);
    }
  }

  lemma RestatusPayments(b: Books, k: nat, status: PaymentStatus)
    requires PaymentsFine(b.bills, b.payments) && k < |b.payments| && !status.Success?
    ensures PaymentsFine(b.bills, b.payments[k := b.payments[k].(status := status, paidAt := None)])
  {
    PaymentsKept(b.bills, b.bills, b.payments, b.payments[k := b.payments[k].(status := status, paidAt := None)]);
  }

  lemma LinkedPayments(b: Books, invoice: Id, link: Id)
    requires PaymentsFine(b.bills, b.payments) && !HasTransfer(b.payments, invoice)
    ensures PaymentsFine(b.bills, Linked(b, invoice, link).payments)
  {
    var after := Linked(b, invoice, link);
    if after != b {
      PaymentAdded(b.bills, b.payments, after.payments[|b.payments|]);
    }
  }

  lemma QrPayments(b: Books, invoice: Id, customer: Id, report: Report, saved: bool, link: Id)
    requires PaymentsFine(b.bills, b.payments)
    ensures var after := CreateQr(b, invoice, customer, report, saved, link); PaymentsFine(after.bills, after.payments)
  {
    if CreateQr(b, invoice, customer, report, saved, link) != b {
      match Newest(b.payments, invoice)
      case Some(k) =>
        if report.status.LinkPaid? {
          MarkPaidPayments(b, invoice, b.payments[k].key.value.link, report.paidAt, report.amount);
        } else {
          RestatusPayments(b, k, Pending);
        }
      case None => LinkedPayments(b, invoice, link);
    }
  }

  lemma CashPayments(b: Books, invoice: Id, provider: Id, key: Option<Id>, now: Time)
    requires PaymentsFine(b.bills, b.payments)
    ensures var after := PayCash(b, invoice, provider, key, now); PaymentsFine(after.bills, after.payments)
  {
    var after := PayCash(b, invoice, provider, key, now);
    if after != b {
      var abandoned := FailAll(b.payments, invoice, Pending);
      PayingStays(b.bills, invoice);
      PaymentsKept(b.bills, after.bills, b.payments, abandoned);
      var p := CashPayment(invoice, key, now);
      forall k | 0 <= k < |abandoned| ensures Apart(abandoned[k], p) {
        assert PaymentFine(b.bills, b.payments[k]);
      }
      PaymentAdded(after.bills, abandoned, p);
    }
  }

  lemma WithoutPayments(b: Books, ids: set<Id>)
    requires PaymentsFine(b.bills, b.payments)
    ensures var after := Without(b, ids); PaymentsFine(after.bills, after.payments)
  {
    var after := Without(b, ids);
    var kept := (p: Payment) => p.invoice !in ids;
    forall k | 0 <= k < |after.payments| ensures PaymentFine(after.bills, after.payments[k]) {
      var i := FilterIndex(b.payments, kept, k);
      assert PaymentFine(b.bills, b.payments[i]);
    }
    forall j, k | 0 <= j < k < |after.payments| ensures Apart(after.payments[j], after.payments[k]) {
      var x, y := FilterPair(b.payments, kept, j, k);
      assert Apart(b.payments[x], b.payments[y]);
    }
  }

  lemma NewsPayments(b: Books, s: Step)
    requires PaymentsFine(b.bills, b.payments) && (s.WebhookCall? || s.CheckLink?)
    ensures var after := Do(b, s); PaymentsFine(after.bills, after.payments)
  {
    var found := FindByKey(b.payments, PayOsLink(s.link));
    if found.Some? {
      MarkPaidPayments(b, b.payments[found.value].invoice, s.link, s.report.paidAt, s.report.amount);
      RestatusPayments(b, found.value, Failed);
    }
  }

  lemma UnpaidStepPayments(b: Books, s: Step)
    requires PaymentsFine(b.bills, b.payments) && Possible(b, s)
    requires s.Prepayment? || s.LatePrepayment? || s.Fine? || s.LateFine? || s.FallsDue? || s.Reconcile?
    ensures var after := Do(b, s); PaymentsFine(after.bills, after.payments)
  {
    PaymentsKept(b.bills, Do(b, s).bills, b.payments, b.payments);
  }

  /** Every step of every history, whatever it loses otherwise, leaves each payment with its invoice, and neither a
      key nor, within an invoice, a payment method used twice. */
  lemma PaymentsStep(b: Books, s: Step)
    requires PaymentsFine(b.bills, b.payments) && Possible(b, s)
    ensures var after := Do(b, s); PaymentsFine(after.bills, after.payments)
  {
    match s
    case WebhookCall(_, _, _) => NewsPayments(b, s);
    case CheckLink(_, _, _) => NewsPayments(b, s);
    case LateSettle(invoice, link, at, amount) => MarkPaidPayments(b, invoice, link, at, amount);
    case LateFail(invoice, link) =>
      if HasLink(b, invoice, link) {
        RestatusPayments(b, FindByKey(b.payments, PayOsLink(link)).value, Failed);
      }
    case LateRevive(invoice, link) =>
      if HasLink(b, invoice, link) {
        RestatusPayments(b, FindByKey(b.payments, PayOsLink(link)).value, Pending);
      }
    case LateLink(invoice, link) => LinkedPayments(b, invoice, link);
    case LateDelete(read) => WithoutPayments(b, read);
    case QrRequest(invoice, customer, report, saved, link) => QrPayments(b, invoice, customer, report, saved, link);
    case CashDesk(invoice, provider, key, at) => CashPayments(b, invoice, provider, key, at);
    case ContractGone(contract) => WithoutPayments(b, UnpaidOf(b, contract));
    case ServiceCancelled(contract) => WithoutPayments(b, UnpaidOf(b, contract));
    case ActivationFails(invoice) =>
      var after := Do(b, s);
      PaymentsKept(b.bills, after.bills, b.payments, after.payments);
    case _ => UnpaidStepPayments(b, s);
  }

  // ---- The whole invariant over the steps ---------------------------------------

  lemma MarkPaidKeeps(b: Books, invoice: Id, link: Id, paidAt: Time, amount: Option<int>)
    requires Sound(b)
    ensures Keeps(b, MarkPaid(b, invoice, link, paidAt, amount))
  {
    MarkPaidPayments(b, invoice, link, paidAt, amount);
    if Payable(b, invoice, link, amount) {
      IncomeUpserted(b, invoice, link, paidAt, amount);
      if !b.bills[invoice].status.Paid? {
        HeraldsPay(b.bills, b.outbox, invoice);
      }
    }
  }

  lemma ActOnKeeps(b: Books, invoice: Id, link: Id, report: Report)
    requires Sound(b) && Unsettled(b, invoice, link)
    ensures Keeps(b, ActOn(b, invoice, link, report))
  {
    MarkPaidKeeps(b, invoice, link, report.paidAt, report.amount);
    assert forall k :: 0 <= k < |b.notified| ==> b.notified[k] != invoice;
  }

  lemma RestatusKeeps(b: Books, k: nat, status: PaymentStatus)
    requires Sound(b) && k < |b.payments| && !status.Success?
    ensures Keeps(b, b.(payments := b.payments[k := b.payments[k].(status := status, paidAt := None)]))
  {
    var after := b.payments[k := b.payments[k].(status := status, paidAt := None)];
    RestatusPayments(b, k, status);
    assert after[..|b.payments|] == after;
    IncomeKept(b.bills, b.bills, b.payments, after, b.ledger);
  }

  lemma LinkedKeeps(b: Books, invoice: Id, link: Id)
    requires Sound(b) && !HasTransfer(b.payments, invoice)
    ensures Keeps(b, Linked(b, invoice, link))
  {
    var after := Linked(b, invoice, link);
    if after != b {
      LinkedPayments(b, invoice, link);
      assert after.payments[..|b.payments|] == b.payments;
      IncomeKept(b.bills, b.bills, b.payments, after.payments, b.ledger);
    }
  }

  lemma QrKeeps(b: Books, invoice: Id, customer: Id, report: Report, saved: bool, link: Id)
    requires Sound(b)
    ensures Keeps(b, CreateQr(b, invoice, customer, report, saved, link))
  {
    if CreateQr(b, invoice, customer, report, saved, link) != b {
      match Newest(b.payments, invoice)
      case Some(k) =>
        if report.status.LinkPaid? {
          MarkPaidKeeps(b, invoice, b.payments[k].key.value.link, report.paidAt, report.amount);
        } else {
          RestatusKeeps(b, k, Pending);
        }
      case None => LinkedKeeps(b, invoice, link);
    }
  }

  lemma CashKeeps(b: Books, invoice: Id, provider: Id, key: Option<Id>, now: Time)
    requires Sound(b)
    ensures Keeps(b, PayCash(b, invoice, provider, key, now))
  {
    var after := PayCash(b, invoice, provider, key, now);
    if after != b {
      CashPayments(b, invoice, provider, key, now);
      PayingStays(b.bills, invoice);
      assert after.payments[..|b.payments|] == FailAll(b.payments, invoice, Pending);
      IncomeKept(b.bills, after.bills, b.payments, after.payments, b.ledger);
      HeraldsPay(b.bills, b.outbox, invoice);
    }
  }

  lemma WithoutKeeps(b: Books, ids: set<Id>)
    requires Sound(b) && forall i :: i in ids ==> !IsPaid(b.bills, i)
    ensures Keeps(b, Without(b, ids))
  {
    var after := Without(b, ids);
    var kept := (p: Payment) => p.invoice !in ids;
    WithoutPayments(b, ids);
    forall r | 0 <= r < |b.ledger| && b.ledger[r].reference.InvoicePayment?
      ensures HasTransfer(after.payments, b.ledger[r].reference.paid)
    {
      var i := b.ledger[r].reference.paid;
      assert IsPaid(b.bills, i) && HasTransfer(b.payments, i);
      var k :| 0 <= k < |b.payments| && b.payments[k].invoice == i && b.payments[k].paidBy.Transfer?;
      FilterMember(b.payments, kept, b.payments[k]);
      var x :| 0 <= x < |after.payments| && after.payments[x] == b.payments[k];
    }
    forall k | 0 <= k < |after.payments| && after.payments[k].paidBy.Transfer? && after.payments[k].status.Success?
      ensures HasReference(b.ledger, InvoicePayment(after.payments[k].invoice))
    {
      var i := FilterIndex(b.payments, kept, k);
    }
    HeraldsRebilled(b.bills, after.bills, b.outbox);
  }

  lemma RevisedKeeps(b: Books, invoice: Id, revision: int, payments: seq<Payment>, m: Message)
    requires Sound(b) && invoice in b.bills && SamePayments(b.payments, payments)
    requires forall k :: 0 <= k < |payments| && payments[k].status.Success? ==> b.payments[k].status.Success?
    requires m.kind.InvoicePaid? ==> m.reconciled && IsPaid(b.bills, m.aggregate)
    ensures Keeps(b, b.(bills := b.bills[invoice := b.bills[invoice].(revision := revision)], payments := payments,
      outbox := PublishLocal(b.outbox, m)))
  {
    var bills := b.bills[invoice := b.bills[invoice].(revision := revision)];
    PaymentsKept(b.bills, bills, b.payments, payments);
    assert payments[..|b.payments|] == payments;
    IncomeKept(b.bills, bills, b.payments, payments, b.ledger);
    HeraldsRebilled(b.bills, bills, b.outbox);
    HeraldsAppend(bills, b.outbox, m);
  }

  lemma RebilledKeeps(b: Books, bills: map<Id, Bill>)
    requires Sound(b) && MoreBills(b.bills, bills)
    requires forall i :: i in bills && IsPaid(bills, i) ==> IsPaid(b.bills, i)
    ensures Keeps(b, b.(bills := bills))
  {
    PaymentsKept(b.bills, bills, b.payments, b.payments);
    assert b.payments[..|b.payments|] == b.payments;
    IncomeKept(b.bills, bills, b.payments, b.payments, b.ledger);
    HeraldsRebilled(b.bills, bills, b.outbox);
  }

  lemma WebhookKeeps(b: Books, link: Id, cached: Option<Id>, report: Report)
    requires Sound(b)
    ensures Keeps(b, Webhook(b, link, cached, report))
  {
    if Webhook(b, link, cached, report) != b {
      ActOnKeeps(b, b.payments[FindByKey(b.payments, PayOsLink(link)).value].invoice, link, report);
    }
  }

  lemma CheckKeeps(b: Books, invoice: Id, link: Id, report: Report)
    requires Sound(b)
    ensures Keeps(b, Check(b, invoice, link, report))
  {
    if Unsettled(b, invoice, link) {
      if report.status.LinkDead? {
        RestatusKeeps(b, FindByKey(b.payments, PayOsLink(link)).value, Failed);
      } else {
        ActOnKeeps(b, invoice, link, report);
      }
    }
  }

  lemma UnpaidStepKeeps(b: Books, s: Step)
    requires s.Prepayment? || s.LatePrepayment? || s.Fine? || s.LateFine? || s.FallsDue?
    requires Sound(b) && Possible(b, s)
    ensures Keeps(b, Do(b, s))
  {
    var after := Do(b, s);
    RebilledKeeps(b, after.bills);
    if (s.Fine? || s.LateFine?) && after != b {
      HeraldsAppend(after.bills, b.outbox, Message(FineInvoiceCreated, s.invoice, 1, s.agreement, s.invoice, false));
    }
  }

  lemma RefundKeeps(b: Books, invoice: Id)
    requires Sound(b)
    ensures Keeps(b, Refund(b, invoice))
  {
    if invoice in b.bills {
      var next := NextRevision(b.bills[invoice].revision);
      RevisedKeeps(b, invoice, next, FailAll(b.payments, invoice, Success),
        Message(RefundRequested, invoice, next, b.bills[invoice].contract, invoice, false));
    }
  }

  lemma RepublishKeeps(b: Books, invoice: Id, seen: int)
    requires Sound(b) && IsPaid(b.bills, invoice)
    ensures Keeps(b, Republish(b, invoice, seen))
  {
    if b.bills[invoice].contract.Some? {
      RevisedKeeps(b, invoice, NextRevision(seen), b.payments,
        Message(InvoicePaid, invoice, NextRevision(seen), b.bills[invoice].contract, invoice, true));
    }
  }

  lemma StepKeeps(b: Books, s: Step)
    requires Sound(b) && Possible(b, s) && Spares(b, s)
    ensures Keeps(b, Do(b, s))
  {
    var after := Do(b, s);
    match s
    case Prepayment(_, _, _, _) => UnpaidStepKeeps(b, s);
    case LatePrepayment(_, _, _, _) => UnpaidStepKeeps(b, s);
    case LateFine(_, _, _, _, _) => UnpaidStepKeeps(b, s);
    case LateDelete(read) => WithoutKeeps(b, read);
    case LateRevive(invoice, link) =>
      if after != b {
        RestatusKeeps(b, FindByKey(b.payments, PayOsLink(link)).value, Pending);
      }
    case LateLink(invoice, link) => LinkedKeeps(b, invoice, link);
    case Fine(_, _, _, _, _) => UnpaidStepKeeps(b, s);
    case FallsDue(_) => UnpaidStepKeeps(b, s);
    case WebhookCall(link, cached, report) => WebhookKeeps(b, link, cached, report);
    case CheckLink(invoice, link, report) => CheckKeeps(b, invoice, link, report);
    case LateSettle(invoice, link, at, amount) => MarkPaidKeeps(b, invoice, link, at, amount);
    case LateFail(invoice, link) =>
      if after != b {
        RestatusKeeps(b, FindByKey(b.payments, PayOsLink(link)).value, Failed);
      }
    case QrRequest(invoice, customer, report, saved, link) => QrKeeps(b, invoice, customer, report, saved, link);
    case CashDesk(invoice, provider, key, at) => CashKeeps(b, invoice, provider, key, at);
    case ContractGone(contract) => WithoutKeeps(b, UnpaidOf(b, contract));
    case ServiceCancelled(contract) => WithoutKeeps(b, UnpaidOf(b, contract));
    case ActivationFails(invoice) => RefundKeeps(b, invoice);
    case Reconcile(invoice, seen) => RepublishKeeps(b, invoice, seen);
  }

  // ---- Whole histories ------------------------------------------------------

  ghost predicate History(b: Books, steps: seq<Step>)
    decreases |steps|
  {
    steps == [] || (Possible(b, steps[0]) && History(Do(b, steps[0]), steps[1..]))
  }

  function End(b: Books, steps: seq<Step>): Books
    decreases |steps|
  {
    if steps == [] then b else End(Do(b, steps[0]), steps[1..])
  }

  /** A history in which every late deletion spares what has been paid since it looked. */
  ghost predicate SparingHistory(b: Books, steps: seq<Step>)
    decreases |steps|
  {
    steps == []
    || (Possible(b, steps[0]) && Spares(b, steps[0]) && SparingHistory(Do(b, steps[0]), steps[1..]))
  }

  lemma {:induction false} HistoryKeeps(b: Books, steps: seq<Step>)
    requires Sound(b) && SparingHistory(b, steps)
    ensures Keeps(b, End(b, steps))
    decreases |steps|
  {
    if steps != [] {
      StepKeeps(b, steps[0]);
      HistoryKeeps(Do(b, steps[0]), steps[1..]);
    }
  }

  /** Whatever happens to invoices and payments, in whatever order: a successful payment means a paid
      invoice, an invoice is paid at most once by transfer and once in cash, it is credited at most once and
      only if it has a PayOS link, and its customer is told of the payment at most once. */
  lemma EveryPaymentCounts(steps: seq<Step>)
    requires SparingHistory(NO_BOOKS, steps)
    ensures var b := End(NO_BOOKS, steps);
      && (forall p :: p in b.payments && p.status.Success? ==> IsPaid(b.bills, p.invoice))
      && (forall j, k :: 0 <= j < k < |b.payments| && b.payments[j].invoice == b.payments[k].invoice ==>
            b.payments[j].paidBy != b.payments[k].paidBy)
      && UniqueReferences(b.ledger)
      && (forall i :: HasReference(b.ledger, InvoicePayment(i)) ==> IsPaid(b.bills, i) && HasTransfer(b.payments, i))
      && (forall p :: p in b.payments && p.paidBy.Transfer? && p.status.Success? ==>
            HasReference(b.ledger, InvoicePayment(p.invoice)))
      && Distinct(b.notified)
  {
    HistoryKeeps(NO_BOOKS, steps);
    var b := End(NO_BOOKS, steps);
    assert forall k :: 0 <= k < |b.payments| ==> PaymentFine(b.bills, b.payments[k]);
    forall j, k | 0 <= j < k < |b.payments| && b.payments[j].invoice == b.payments[k].invoice
      ensures b.payments[j].paidBy != b.payments[k].paidBy
    {
      assert Apart(b.payments[j], b.payments[k]);
    }
  }

  /** A paid invoice with a contract has announced its payment exactly once, an unpaid one never. */
  lemma PaymentAnnouncedOnce(steps: seq<Step>, invoice: Id)
    requires SparingHistory(NO_BOOKS, steps)
    ensures var b := End(NO_BOOKS, steps);
      && (forall j, k :: 0 <= j < k < |b.outbox| ==>
            !(IsFirstHand(b.outbox[j], invoice) && IsFirstHand(b.outbox[k], invoice)))
      && (IsPaid(b.bills, invoice) && b.bills[invoice].contract.Some? ==> Heralded(b.outbox, invoice))
      && (Heralded(b.outbox, invoice) ==> IsPaid(b.bills, invoice))
  {
    HistoryKeeps(NO_BOOKS, steps);
    var b := End(NO_BOOKS, steps);
    if Heralded(b.outbox, invoice) {
      var k :| 0 <= k < |b.outbox| && IsFirstHand(b.outbox[k], invoice);
    }
  }

  /** Once paid, always paid, for the same contract, customer and provider, and never deleted. */
  lemma PaidIsFinal(steps: seq<Step>, more: seq<Step>, invoice: Id)
    requires SparingHistory(NO_BOOKS, steps) && SparingHistory(End(NO_BOOKS, steps), more)
    requires IsPaid(End(NO_BOOKS, steps).bills, invoice)
    ensures var was := End(NO_BOOKS, steps).bills;
      var now := End(End(NO_BOOKS, steps), more).bills;
      IsPaid(now, invoice) && now[invoice] == was[invoice].(revision := now[invoice].revision)
  {
    HistoryKeeps(NO_BOOKS, steps);
    HistoryKeeps(End(NO_BOOKS, steps), more);
  }

  /** No step of the history takes a paid invoice away or changes it but for its revision. */
  ghost predicate NothingPaidIsLost(b: Books, steps: seq<Step>)
    decreases |steps|
  {
    steps == []
    || (PaidStay(b.bills, Do(b, steps[0]).bills) && NothingPaidIsLost(Do(b, steps[0]), steps[1..]))
  }

  lemma {:induction false} LostExactlyBy(b: Books, steps: seq<Step>)
    requires Sound(b) && History(b, steps)
    ensures NothingPaidIsLost(b, steps) <==> SparingHistory(b, steps)
    decreases |steps|
  {
    if steps != [] {
      if Spares(b, steps[0]) {
        StepKeeps(b, steps[0]);
        LostExactlyBy(Do(b, steps[0]), steps[1..]);
      } else {
        var i :| i in steps[0].read && IsPaid(b.bills, i);
        assert i !in Do(b, steps[0]).bills;
      }
    }
  }

  /** Of all the handlers only the deleting ones can lose a paid invoice, whatever else runs late. They read the
      ids before their transaction and delete by id alone: paid invoices survive a history exactly when no
      deletion finds an invoice paid that it had read to be unpaid. */
  lemma PaidIsLostExactly(steps: seq<Step>)
    requires History(NO_BOOKS, steps)
    ensures NothingPaidIsLost(NO_BOOKS, steps) <==> SparingHistory(NO_BOOKS, steps)
  {
    LostExactlyBy(NO_BOOKS, steps);
  }
}
