/** How one invoice comes to be paid: cash at the provider, a PayOS link settled by webhook, customer poll,
    background pass or a repeated QR request, and everything else that touches invoices and payments. */
module Settlement {
  import opened Sums
  import opened Ledger
  import opened Outbox

  type Time = int

  datatype BillStatus = Unpaid | Overdue | Paid
  datatype Method = Cash | Transfer
  datatype PaymentStatus = Pending | Success | Failed

  // The unique payment-link column: a PayOS link, or the idempotency key of a cash payment.
  datatype Key = PayOsLink(link: Id) | CashKey(key: Id)

  // `fine` is the violation-case prefix of a fine invoice.
  datatype Bill = Bill(
    provider: Id,
    customer: Option<Id>,
    contract: Option<Id>,
    fine: Option<Id>,
    status: BillStatus,
    revision: int)

  datatype Payment = Payment(
    invoice: Id,
    paidBy: Method,
    key: Option<Key>,
    status: PaymentStatus,
    paidAt: Option<Time>)

  // Payments stand in creation order. `notified` logs the "payment completed" notifications.
  datatype Books = Books(
    bills: map<Id, Bill>,
    payments: seq<Payment>,
    ledger: seq<Row>,
    outbox: seq<Message>,
    notified: seq<Id>)

  const NO_BOOKS := Books(map[], [], [], [], [])

  function NextRevision(revision: int): int {
    (if revision == 0 then 1 else revision) + 1
  }

  function FindByKey(payments: seq<Payment>, key: Key): (found: Option<nat>)
    ensures found.Some? ==> found.value < |payments| && payments[found.value].key == Some(key)
    ensures found.None? ==> forall k :: 0 <= k < |payments| ==> payments[k].key != Some(key)
  {
    if payments == [] then None
    else if payments[|payments| - 1].key == Some(key) then Some(|payments| - 1)
    else FindByKey(payments[..|payments| - 1], key)
  }

  /** The newest payment of an invoice. */
  function Newest(payments: seq<Payment>, invoice: Id): (found: Option<nat>)
    ensures found.Some? ==> found.value < |payments| && payments[found.value].invoice == invoice
    ensures found.Some? ==> forall k :: found.value < k < |payments| ==> payments[k].invoice != invoice
    ensures found.None? ==> forall k :: 0 <= k < |payments| ==> payments[k].invoice != invoice
  {
    if payments == [] then None
    else if payments[|payments| - 1].invoice == invoice then Some(|payments| - 1)
    else Newest(payments[..|payments| - 1], invoice)
  }

  function PaidMessage(invoice: Id, bill: Bill): Message {
    Message(InvoicePaid, invoice, NextRevision(bill.revision), bill.contract, invoice, false)
  }

  function Announced(outbox: seq<Message>, invoice: Id, bill: Bill): seq<Message> {
    if bill.contract.Some? then PublishLocal(outbox, PaidMessage(invoice, bill)) else outbox
  }

  function Paying(bill: Bill): Bill {
    bill.(status := Paid, revision := bill.revision + 1)
  }

  // ---- The settling transaction ---------------------------------------------

  /** `amount` is none when PayOS's figure is not a finite number. */
  predicate Payable(b: Books, invoice: Id, link: Id, amount: Option<int>) {
    var found := FindByKey(b.payments, PayOsLink(link));
    found.Some? && b.payments[found.value].invoice == invoice && invoice in b.bills && amount.Some?
  }

  predicate Transitions(b: Books, invoice: Id, link: Id, amount: Option<int>) {
    Payable(b, invoice, link, amount) && !b.bills[invoice].status.Paid?
  }

  function Succeeded(p: Payment, paidAt: Time): Payment {
    p.(paidBy := Transfer, status := Success, paidAt := if p.paidAt.Some? then p.paidAt else Some(paidAt))
  }

  function MarkPaid(b: Books, invoice: Id, link: Id, paidAt: Time, amount: Option<int>): Books {
    if !Payable(b, invoice, link, amount) then b
    else
      var k := FindByKey(b.payments, PayOsLink(link)).value;
      var bill := b.bills[invoice];
      var settled := b.(
        payments := b.payments[k := Succeeded(b.payments[k], paidAt)],
        ledger := UpsertIncome(b.ledger, invoice, bill.provider, amount.value));
      if bill.status.Paid? then settled
      else settled.(bills := b.bills[invoice := Paying(bill)], outbox := Announced(b.outbox, invoice, bill))
  }

  function MarkFailed(b: Books, invoice: Id, link: Id): Books {
    var found := FindByKey(b.payments, PayOsLink(link));
    if found.None? || b.payments[found.value].invoice != invoice then b
    else b.(payments := b.payments[found.value := b.payments[found.value].(status := Failed, paidAt := None)])
  }

  // ---- The handlers that ask PayOS ------------------------------------------

  datatype LinkStatus = LinkPaid | LinkDead | LinkOpen

  datatype Report = Report(status: LinkStatus, paidAt: Time, amount: Option<int>)

  /** A handler that saw the invoice unpaid acts on PayOS's report. */
  function ActOn(b: Books, invoice: Id, link: Id, report: Report): Books {
    if !report.status.LinkPaid? then b
    else
      var after := MarkPaid(b, invoice, link, report.paidAt, report.amount);
      if Transitions(b, invoice, link, report.amount) && b.bills[invoice].customer.Some?
      then after.(notified := after.notified + [invoice])
      else after
  }

  /** The link belongs to this invoice and the invoice is still unpaid. */
  predicate Unsettled(b: Books, invoice: Id, link: Id) {
    var found := FindByKey(b.payments, PayOsLink(link));
    && found.Some? && b.payments[found.value].invoice == invoice
    && invoice in b.bills && !b.bills[invoice].status.Paid?
  }

  /** A verified, successful webhook; `cached` is the invoice Redis remembers for the link. */
  function Webhook(b: Books, link: Id, cached: Option<Id>, report: Report): Books {
    var found := FindByKey(b.payments, PayOsLink(link));
    if found.None? then b
    else
      var invoice := b.payments[found.value].invoice;
      if (cached.Some? && cached.value != invoice) || !Unsettled(b, invoice, link) then b
      else ActOn(b, invoice, link, report)
  }

  /** The background pass over one link; the customer's poll does the same once it holds the cooldown lock. */
  function Check(b: Books, invoice: Id, link: Id, report: Report): Books {
    if !Unsettled(b, invoice, link) then b
    else if report.status.LinkDead? then MarkFailed(b, invoice, link)
    else ActOn(b, invoice, link, report)
  }

  /** A link that is still open is pending again. */
  function Revived(b: Books, k: nat): Books
    requires k < |b.payments|
  {
    b.(payments := b.payments[k := b.payments[k].(status := Pending, paidAt := None)])
  }

  /** The row of a new link goes in, unless the link is taken or the invoice gone. */
  function Linked(b: Books, invoice: Id, link: Id): Books {
    if invoice !in b.bills || FindByKey(b.payments, PayOsLink(link)).Some? then b
    else b.(payments := b.payments + [Payment(invoice, Transfer, Some(PayOsLink(link)), Pending, None)])
  }

  /** A QR request. `saved` says whether the old link's QR data is known, `newLink` is the link PayOS
      hands out when one is made. */
  function CreateQr(b: Books, invoice: Id, customer: Id, report: Report, saved: bool, newLink: Id): Books {
    if invoice !in b.bills || b.bills[invoice].customer != Some(customer) || b.bills[invoice].status.Paid? then b
    else
      match Newest(b.payments, invoice)
      case Some(k) =>
        if b.payments[k].key.None? || b.payments[k].key.value.CashKey? then b
        else if report.status.LinkPaid? then
          MarkPaid(b, invoice, b.payments[k].key.value.link, report.paidAt, report.amount)
        else if report.status.LinkOpen? && saved then Revived(b, k)
        else b
      case None => Linked(b, invoice, newLink)
  }

  /** The payment of this link is there, and this invoice's. */
  predicate HasLink(b: Books, invoice: Id, link: Id) {
    var found := FindByKey(b.payments, PayOsLink(link));
    found.Some? && b.payments[found.value].invoice == invoice
  }

  /** A QR request's write to the payment it found, by its identifier alone. */
  function ReviveLink(b: Books, invoice: Id, link: Id): Books {
    if HasLink(b, invoice, link) then Revived(b, FindByKey(b.payments, PayOsLink(link)).value) else b
  }

  // ---- Cash -----------------------------------------------------------------

  datatype CashAnswer = NotFound | KeyTaken | AlreadyPaid | Receipt(payment: Payment)

  /** An invoice's payments in one status are marked failed. */
  function FailAll(payments: seq<Payment>, invoice: Id, was: PaymentStatus): (after: seq<Payment>)
    ensures |after| == |payments|
    ensures forall k | 0 <= k < |payments| && payments[k].invoice == invoice && payments[k].status == was ::
      after[k] == payments[k].(status := Failed)
    ensures forall k | 0 <= k < |payments| && !(payments[k].invoice == invoice && payments[k].status == was) ::
      after[k] == payments[k]
  {
    seq(|payments|, k requires 0 <= k < |payments| =>
      if payments[k].invoice == invoice && payments[k].status == was then payments[k].(status := Failed)
      else payments[k])
  }

  function CashPayment(invoice: Id, key: Option<Id>, now: Time): Payment {
    Payment(invoice, Cash, if key.Some? then Some(CashKey(key.value)) else None, Success, Some(now))
  }

  function AnswerCash(b: Books, invoice: Id, provider: Id, key: Option<Id>, now: Time): CashAnswer {
    if invoice !in b.bills || b.bills[invoice].provider != provider then NotFound
    else
      var previous := if key.Some? then FindByKey(b.payments, CashKey(key.value)) else None;
      if previous.Some? then
        if b.payments[previous.value].invoice == invoice then Receipt(b.payments[previous.value]) else KeyTaken
      else if b.bills[invoice].status.Paid? then AlreadyPaid
      else Receipt(CashPayment(invoice, key, now))
  }

  function PayCash(b: Books, invoice: Id, provider: Id, key: Option<Id>, now: Time): Books {
    if invoice !in b.bills || b.bills[invoice].provider != provider || b.bills[invoice].status.Paid?
      || (key.Some? && FindByKey(b.payments, CashKey(key.value)).Some?)
    then b
    else
      var bill := b.bills[invoice];
      b.(bills := b.bills[invoice := Paying(bill)],
         payments := FailAll(b.payments, invoice, Pending) + [CashPayment(invoice, key, now)],
         outbox := Announced(b.outbox, invoice, bill))
  }

  // ---- Making, deleting, refunding and republishing ---------------------------

  /** An identifier nothing in the books has ever used. */
  ghost predicate Unused(b: Books, invoice: Id) {
    && invoice !in b.bills
    && (forall k :: 0 <= k < |b.payments| ==> b.payments[k].invoice != invoice)
    && (forall k :: 0 <= k < |b.outbox| ==> b.outbox[k].aggregate != invoice)
    && !HasReference(b.ledger, InvoicePayment(invoice))
  }

  function BillContract(b: Books, invoice: Id, provider: Id, customer: Id, contract: Id): Books {
    b.(bills := b.bills[invoice := Bill(provider, Some(customer), Some(contract), None, Unpaid, 1)])
  }

  function Prepay(b: Books, invoice: Id, provider: Id, customer: Id, contract: Id): Books {
    if exists i :: i in b.bills && b.bills[i].contract == Some(contract) then b
    else BillContract(b, invoice, provider, customer, contract)
  }

  predicate Fined(b: Books, prefix: Id) {
    exists i :: i in b.bills && b.bills[i].fine == Some(prefix)
  }

  function BillFine(b: Books, invoice: Id, provider: Id, customer: Id, contract: Option<Id>, prefix: Id): Books {
    b.(bills := b.bills[invoice := Bill(provider, Some(customer), contract, Some(prefix), Unpaid, 1)],
       outbox := PublishLocal(b.outbox, Message(FineInvoiceCreated, invoice, 1, contract, invoice, false)))
  }

  function ImposeFine(b: Books, invoice: Id, provider: Id, customer: Id, contract: Option<Id>, prefix: Id): Books {
    if Fined(b, prefix) then b else BillFine(b, invoice, provider, customer, contract, prefix)
  }

  function Without(b: Books, ids: set<Id>): Books {
    b.(bills := b.bills - ids, payments := Filter(b.payments, (p: Payment) => p.invoice !in ids))
  }

  function UnpaidOf(b: Books, contract: Id): set<Id> {
    set i | i in b.bills && b.bills[i].contract == Some(contract) && !b.bills[i].status.Paid?
  }

  /** The contract was cancelled or its prepayment lapsed: its unpaid invoices go. */
  function DropUnpaid(b: Books, contract: Id): Books {
    Without(b, UnpaidOf(b, contract))
  }

  /** The customer cancels the service: refused as soon as one invoice of the contract is paid. */
  function CancelPrepayment(b: Books, contract: Id): Books {
    if exists i :: i in b.bills && b.bills[i].contract == Some(contract) && b.bills[i].status.Paid? then b
    else DropUnpaid(b, contract)
  }

  /** The activation-failed handler, for the invoice it settles on. */
  function Refund(b: Books, invoice: Id): Books {
    if invoice !in b.bills then b
    else
      var bill := b.bills[invoice];
      var next := NextRevision(bill.revision);
      b.(bills := b.bills[invoice := bill.(revision := next)],
         payments := FailAll(b.payments, invoice, Success),
         outbox := PublishLocal(b.outbox, Message(RefundRequested, invoice, next, bill.contract, invoice, false)))
  }

  /** What looking for a paid invoice of the contract may find. */
  predicate Substitutes(b: Books, contract: Id, other: Option<Id>) {
    match other
    case Some(i) => i in b.bills && b.bills[i].status.Paid? && b.bills[i].contract == Some(contract)
    case None => forall i :: i in b.bills && b.bills[i].status.Paid? ==> b.bills[i].contract != Some(contract)
  }

  /** The handler refunds the invoice the report names; only if that is gone, the `other` it then finds. */
  function RefundNamed(b: Books, invoice: Id, other: Option<Id>): Books {
    if invoice in b.bills then Refund(b, invoice)
    else if other.Some? then Refund(b, other.value)
    else b
  }

  /** The maintenance worker republishes from the revision it read, `seen`. */
  function Republish(b: Books, invoice: Id, seen: int): Books {
    if invoice !in b.bills || b.bills[invoice].contract.None? then b
    else
      var bill := b.bills[invoice];
      var next := NextRevision(seen);
      b.(bills := b.bills[invoice := bill.(revision := next)],
         outbox := PublishLocal(b.outbox, Message(InvoicePaid, invoice, next, bill.contract, invoice, true)))
  }
}
