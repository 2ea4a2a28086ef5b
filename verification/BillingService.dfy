/** The billing service's handlers as they update invoices, payments, ledger, outbox and inbox in place. */
module BillingService {
  import opened Sums
  import opened Ledger
  import opened Outbox
  import opened Inbox
  import opened Settlement
  import opened SettlementSafety
  import opened SettlementRaces
  import opened ActivationSaga

  // An invoice as the maintenance worker read it, and what the contract service then answered.
  datatype ContractAnswer = Waiting | NotWaiting | NoAnswer

  datatype Stale = Stale(invoice: Id, seen: int, answer: ContractAnswer)

  function RepublishStale(b: Books, s: Stale): Books {
    if s.answer.Waiting? then Republish(b, s.invoice, s.seen) else b
  }

  const STALE_BATCH := 50

  predicate StillPaid(b: Books, stale: seq<Stale>) {
    forall k :: 0 <= k < |stale| ==> IsPaid(b.bills, stale[k].invoice)
  }

  /** What the worker read of each invoice, each read once, is still so. */
  predicate StillCurrent(b: Books, stale: seq<Stale>) {
    && StillPaid(b, stale)
    && (forall k :: 0 <= k < |stale| ==> stale[k].seen == b.bills[stale[k].invoice].revision)
    && (forall j, k :: 0 <= j < k < |stale| ==> stale[j].invoice != stale[k].invoice)
  }

  lemma {:induction false} RoundKeeps(b: Books, stale: seq<Stale>)
    requires Sound(b) && StillPaid(b, stale)
    ensures Keeps(b, Folded(RepublishStale, b, stale))
  {
    if stale != [] {
      var n := |stale| - 1;
      RoundKeeps(b, stale[..n]);
      var before := Folded(RepublishStale, b, stale[..n]);
      if stale[n].answer.Waiting? {
        RepublishKeeps(before, stale[n].invoice, stale[n].seen);
      }
    }
  }

  predicate Listed(stale: seq<Stale>, invoice: Id) {
    exists k :: 0 <= k < |stale| && stale[k].invoice == invoice
  }

  lemma {:induction false} RoundTouchesListed(b: Books, stale: seq<Stale>)
    ensures var after := Folded(RepublishStale, b, stale).bills;
      after.Keys == b.bills.Keys && forall i :: i in b.bills && !Listed(stale, i) ==> after[i] == b.bills[i]
  {
    if stale != [] {
      var n := |stale| - 1;
      RoundTouchesListed(b, stale[..n]);
      forall i | Listed(stale[..n], i) ensures Listed(stale, i) {
        var k :| 0 <= k < n && stale[..n][k].invoice == i;
        assert stale[k].invoice == i;
      }
      assert Listed(stale, stale[n].invoice);
    }
  }

  /** A round over invoices read just before, each once, writes from current revisions throughout. */
  lemma {:induction false} RoundKeepsOrder(b: Books, stale: seq<Stale>)
    requires Ordered(b.bills, b.outbox) && StillCurrent(b, stale)
    ensures var after := Folded(RepublishStale, b, stale); Ordered(after.bills, after.outbox)
  {
    if stale != [] {
      var n := |stale| - 1;
      RoundKeepsOrder(b, stale[..n]);
      RoundTouchesListed(b, stale[..n]);
      var before := Folded(RepublishStale, b, stale[..n]);
      var last := stale[n];
      assert !Listed(stale[..n], last.invoice);
      assert before.bills[last.invoice] == b.bills[last.invoice];
      if last.answer.Waiting? {
        OrderedStep(before, Reconcile(last.invoice, last.seen));
      }
    }
  }

  /** The books stay sound and paid invoices stay; messages stay in order, and nothing paid becomes pending. */
  predicate Upholds(b: Books, after: Books) {
    && Keeps(b, after)
    && (Ordered(b.bills, b.outbox) ==> Ordered(after.bills, after.outbox))
    && (Closed(b.bills, b.payments) ==> Closed(after.bills, after.payments))
  }

  /** Every handler that is a step of the settlement histories does that. */
  lemma Upheld(b: Books, s: Step)
    requires Sound(b) && Possible(b, s) && Spares(b, s) && !Overtaken(b, s) && !s.Reconcile?
    ensures Upholds(b, Do(b, s))
  {
    StepKeeps(b, s);
    if Ordered(b.bills, b.outbox) {
      OrderedStep(b, s);
    }
    if Closed(b.bills, b.payments) {
      ClosedStep(b, s);
    }
  }

  lemma RefundUpheld(b: Books, invoice: Id, other: Option<Id>)
    requires Sound(b)
    ensures Upholds(b, RefundNamed(b, invoice, other)) && Upholds(b, b)
  {
    var target := if invoice !in b.bills && other.Some? then other.value else invoice;
    Upheld(b, ActivationFails(target));
  }

  lemma ReportUpheld(side: BillingSide, m: nat, report: Message, other: Option<Id>, landing: Landing)
    requires Sound(side.books)
    ensures var after := ReceiveReport(side, m, report, other, landing);
      && Upholds(side.books, after.books)
      && (Substitutes(side.books, report.aggregate, other) ==> BillingStaysInStep(side, after, m, report))
  {
    RefundUpheld(side.books, report.invoice, other);
    if Substitutes(side.books, report.aggregate, other) {
      ReportKeepsStep(side, m, report, other, landing);
    }
  }

  class Billing {
    var bills: map<Id, Bill>
    var payments: seq<Payment>
    var ledger: seq<Row>
    var outbox: seq<Message>
    var notified: seq<Id>
    var claims: map<nat, ClaimState>
    var isReconciling: bool

    constructor ()
      ensures Side() == BillingSide(NO_BOOKS, map[]) && !isReconciling
      ensures Valid() && InOrder()
    {
      bills, payments, ledger, outbox, notified, claims, isReconciling := map[], [], [], [], [], map[], false;
    }

    function View(): Books
      reads this
    {
      Books(bills, payments, ledger, outbox, notified)
    }

    function Side(): BillingSide
      reads this
    {
      BillingSide(View(), claims)
    }

    predicate Valid()
      reads this
    {
      Sound(View())
    }

    /** No invoice's messages are out of order. */
    predicate InOrder()
      reads this
    {
      Ordered(bills, outbox)
    }

    /** No payment of a paid invoice is pending. */
    predicate NothingPending()
      reads this
    {
      Closed(bills, payments)
    }

    method Publish(m: Message)
      modifies this`outbox
      ensures outbox == PublishLocal(old(outbox), m)
    {
      var existing := exists k :: 0 <= k < |outbox| && SameKey(outbox[k], m);
      if existing {
        return;
      }
      outbox := outbox + [m];
    }

    method MarkInvoicePaidInTransaction(invoice: Id, link: Id, paidAt: Time, amountPaid: Option<int>)
      returns (transitionedToPaid: bool)
      requires Valid()
      modifies this`bills, this`payments, this`ledger, this`outbox
      ensures View() == MarkPaid(old(View()), invoice, link, paidAt, amountPaid)
      ensures transitionedToPaid <==> Transitions(old(View()), invoice, link, amountPaid)
      ensures Valid() && Upholds(old(View()), View())
    {
      ghost var step := LateSettle(invoice, link, paidAt, amountPaid);
      ghost var before := View();
      transitionedToPaid := false;
      var found := FindByKey(payments, PayOsLink(link));
      if found.None? || payments[found.value].invoice != invoice || amountPaid.None? || invoice !in bills {
        return;
      }
      var bill := bills[invoice];
      if !bill.status.Paid? {
        bills := bills[invoice := bill.(status := Paid, revision := bill.revision + 1)];
        transitionedToPaid := true;
      }
      var payment := payments[found.value];
      payments := payments[found.value := payment.(
        paidBy := Transfer, status := Success,
        paidAt := if payment.paidAt.Some? then payment.paidAt else Some(paidAt))];
      if transitionedToPaid && bill.contract.Some? {
        Publish(Message(InvoicePaid, invoice, NextRevision(bill.revision), bill.contract, invoice, false));
      }
      ledger := UpsertIncome(ledger, invoice, bill.provider, amountPaid.value);
      Upheld(before, step);
    }

    method MarkPaymentFailed(invoice: Id, link: Id)
      requires Valid()
      modifies this`payments
      ensures View() == MarkFailed(old(View()), invoice, link)
      ensures Valid()
    {
      ghost var before := View();
      var found := FindByKey(payments, PayOsLink(link));
      if found.Some? && payments[found.value].invoice == invoice {
        payments := payments[found.value := payments[found.value].(status := Failed, paidAt := None)];
      }
      Upheld(before, LateFail(invoice, link));
    }

    method SettleAndNotify(invoice: Id, link: Id, report: Report) returns (updated: bool)
      requires Valid() && invoice in bills && report.status.LinkPaid?
      modifies this`bills, this`payments, this`ledger, this`outbox, this`notified
      ensures View() == ActOn(old(View()), invoice, link, report)
    {
      updated := MarkInvoicePaidInTransaction(invoice, link, report.paidAt, report.amount);
      if updated && bills[invoice].customer.Some? {
        notified := notified + [invoice];
      }
    }

    method HandlePayOsWebhook(link: Id, success: bool, cachedInvoice: Option<Id>, report: Report)
      requires Valid()
      modifies this`bills, this`payments, this`ledger, this`outbox, this`notified
      ensures View() == if success then Webhook(old(View()), link, cachedInvoice, report) else old(View())
      ensures Valid() && Upholds(old(View()), View())
    {
      ghost var before := View();
      if !success {
        return;
      }
      var found := FindByKey(payments, PayOsLink(link));
      if found.None? || payments[found.value].invoice !in bills {
        return;
      }
      var invoice := payments[found.value].invoice;
      if cachedInvoice.Some? && cachedInvoice.value != invoice {
        return;
      }
      if bills[invoice].status.Paid? {
        return;
      }
      if report.status.LinkPaid? {
        var updated := SettleAndNotify(invoice, link, report);
      }
      Upheld(before, WebhookCall(link, cachedInvoice, report));
    }

    /** The customer's poll with the cooldown lock, and the worker's pass, which needs none. */
    method CheckPaymentStatus(invoice: Id, link: Id, locked: bool, report: Report)
      requires Valid()
      modifies this`bills, this`payments, this`ledger, this`outbox, this`notified
      ensures View() == if locked then Check(old(View()), invoice, link, report) else old(View())
      ensures Valid() && Upholds(old(View()), View())
    {
      ghost var before := View();
      var found := FindByKey(payments, PayOsLink(link));
      if found.None? || payments[found.value].invoice != invoice || invoice !in bills {
        return;
      }
      if bills[invoice].status.Paid? || !locked {
        return;
      }
      if report.status.LinkPaid? {
        var updated := SettleAndNotify(invoice, link, report);
      } else if report.status.LinkDead? {
        MarkPaymentFailed(invoice, link);
      }
      Upheld(before, CheckLink(invoice, link, report));
    }

    method PayInvoice(provider: Id, invoice: Id, key: Option<Id>, now: Time) returns (answer: CashAnswer)
      requires Valid()
      modifies this`bills, this`payments, this`outbox
      ensures View() == PayCash(old(View()), invoice, provider, key, now)
      ensures answer == AnswerCash(old(View()), invoice, provider, key, now)
      ensures Valid() && Upholds(old(View()), View())
    {
      ghost var before := View();
      if invoice !in bills || bills[invoice].provider != provider {
        return NotFound;
      }
      if key.Some? {
        var previous := FindByKey(payments, CashKey(key.value));
        if previous.Some? {
          if payments[previous.value].invoice == invoice {
            return Receipt(payments[previous.value]);
          }
          return KeyTaken;
        }
      }
      var bill := bills[invoice];
      if bill.status.Paid? {
        return AlreadyPaid;
      }
      payments := FailAll(payments, invoice, Pending);
      bills := bills[invoice := bill.(status := Paid, revision := bill.revision + 1)];
      var payment := CashPayment(invoice, key, now);
      payments := payments + [payment];
      if bill.contract.Some? {
        Publish(Message(InvoicePaid, invoice, NextRevision(bill.revision), bill.contract, invoice, false));
      }
      answer := Receipt(payment);
      Upheld(before, CashDesk(invoice, provider, key, now));
    }

    /** The write of a QR request to the payment it found. It is by the payment alone: whether the invoice has been
        paid since the request looked decides whether the payment of a paid invoice becomes pending. */
    method MakePendingAgain(k: nat)
      requires Valid() && k < |payments|
      modifies this`payments
      ensures View() == Revived(old(View()), k)
      ensures Valid() && (old(InOrder()) ==> InOrder())
      ensures old(NothingPending()) ==> (NothingPending() <==> !IsPaid(bills, payments[k].invoice))
    {
      RestatusKeeps(View(), k, Pending);
      payments := payments[k := payments[k].(status := Pending, paidAt := None)];
      assert payments[k].status.Pending?;
    }

    /** The row of a new link, for an invoice the request found without payments. Its lock has kept other requests
        from making a link since, but not the invoice from being paid in cash. */
    method AddPaymentLink(invoice: Id, newLink: Id) returns (created: bool)
      requires Valid() && invoice in bills && !HasTransfer(payments, invoice)
      modifies this`payments
      ensures View() == Linked(old(View()), invoice, newLink)
      ensures created <==> |payments| > |old(payments)|
      ensures Valid() && (old(InOrder()) ==> InOrder())
      ensures old(NothingPending()) && created ==> (NothingPending() <==> !IsPaid(bills, invoice))
    {
      LinkedKeeps(View(), invoice, newLink);
      var taken := FindByKey(payments, PayOsLink(newLink));
      created := taken.None?;
      if created {
        payments := payments + [Payment(invoice, Transfer, Some(PayOsLink(newLink)), Pending, None)];
        assert payments[|payments| - 1].invoice == invoice;
      }
    }

    /** `created` is set when PayOS made a link and its payment row went in. */
    method CreateQrCodeWithLock(invoice: Id, customer: Id, report: Report, saved: bool, newLink: Id)
      returns (created: bool)
      requires Valid()
      modifies this`bills, this`payments, this`ledger, this`outbox
      ensures View() == CreateQr(old(View()), invoice, customer, report, saved, newLink)
      ensures created <==> |payments| > |old(payments)|
      ensures Valid() && Upholds(old(View()), View())
    {
      ghost var before := View();
      created := false;
      if invoice !in bills || bills[invoice].customer != Some(customer) || bills[invoice].status.Paid? {
        return;
      }
      var newest := Newest(payments, invoice);
      if newest.Some? {
        var existing := payments[newest.value];
        if existing.key.None? || existing.key.value.CashKey? {
          return;
        }
        if report.status.LinkPaid? {
          var updated := MarkInvoicePaidInTransaction(invoice, existing.key.value.link, report.paidAt, report.amount);
        } else if report.status.LinkOpen? && saved {
          MakePendingAgain(newest.value);
        }
      } else {
        created := AddPaymentLink(invoice, newLink);
      }
      Upheld(before, QrRequest(invoice, customer, report, saved, newLink));
    }

    /** `invoice` is the identifier a new invoice gets. */
    method CreatePrepaymentInvoice(invoice: Id, provider: Id, customer: Id, contract: Id) returns (made: bool)
      requires Valid() && Unused(View(), invoice)
      modifies this`bills
      ensures View() == Prepay(old(View()), invoice, provider, customer, contract)
      ensures exists i :: i in bills && bills[i].contract == Some(contract)
      ensures Valid() && Upholds(old(View()), View())
    {
      ghost var before := View();
      made := !exists i :: i in bills && bills[i].contract == Some(contract);
      if made {
        bills := bills[invoice := Bill(provider, Some(customer), Some(contract), None, Unpaid, 1)];
        assert bills[invoice].contract == Some(contract);
      }
      Upheld(before, Prepayment(invoice, provider, customer, contract));
    }

    method HandleViolationFineImposed(invoice: Id, provider: Id, customer: Id, contract: Option<Id>, prefix: Id)
      requires Valid() && Unused(View(), invoice)
      modifies this`bills, this`outbox
      ensures View() == ImposeFine(old(View()), invoice, provider, customer, contract, prefix)
      ensures Valid() && Upholds(old(View()), View())
    {
      ghost var before := View();
      if exists i :: i in bills && bills[i].fine == Some(prefix) {
        return;
      }
      bills := bills[invoice := Bill(provider, Some(customer), contract, Some(prefix), Unpaid, 1)];
      Publish(Message(FineInvoiceCreated, invoice, 1, contract, invoice, false));
      Upheld(before, Fine(invoice, provider, customer, contract, prefix));
    }

    /** The deleting transaction, over ids read before it. */
    method DeleteInvoices(ids: set<Id>)
      requires Valid()
      modifies this`bills, this`payments
      ensures View() == Without(old(View()), ids)
      ensures PaidStay(old(bills), bills) <==> forall i :: i in ids ==> !IsPaid(old(bills), i)
      ensures PaidStay(old(bills), bills) ==> Valid()
      ensures (old(InOrder()) ==> InOrder()) && (old(NothingPending()) ==> NothingPending())
    {
      ghost var before := View();
      payments := Filter(payments, (p: Payment) => p.invoice !in ids);
      bills := bills - ids;
      if before.bills.Keys * ids != {} {
        assert forall i :: i in ids ==> i !in bills;
      }
      if Ordered(before.bills, outbox) {
        OrderedStep(before, LateDelete(ids));
      }
      if Closed(before.bills, before.payments) {
        ClosedStep(before, LateDelete(ids));
      }
      if Spares(before, LateDelete(ids)) {
        StepKeeps(before, LateDelete(ids));
      }
    }

    method HandleContractCancelled(contract: Id)
      requires Valid()
      modifies this`bills, this`payments
      ensures View() == DropUnpaid(old(View()), contract)
      ensures Valid() && Upholds(old(View()), View())
    {
      DeleteInvoices(set i | i in bills && bills[i].contract == Some(contract) && !bills[i].status.Paid?);
    }

    method CancelContractPrepaymentInvoice(contract: Id) returns (refused: bool)
      requires Valid()
      modifies this`bills, this`payments
      ensures View() == CancelPrepayment(old(View()), contract)
      ensures refused ==> View() == old(View())
      ensures !refused ==> forall i :: i in bills ==> bills[i].contract != Some(contract)
      ensures Valid() && Upholds(old(View()), View())
    {
      refused := exists i :: i in bills && bills[i].contract == Some(contract) && bills[i].status.Paid?;
      if !refused {
        HandleContractCancelled(contract);
      }
    }

    /** `other` is what the search for another paid invoice of the contract finds, if it comes to that. */
    method HandleContractActivationFailed(invoice: Id, other: Option<Id>)
      modifies this`bills, this`payments, this`outbox
      ensures View() == RefundNamed(old(View()), invoice, other)
    {
      var target := if invoice in bills then Some(invoice) else other;
      if target.None? || target.value !in bills {
        return;
      }
      var bill := bills[target.value];
      var nextRevision := NextRevision(bill.revision);
      bills := bills[target.value := bill.(revision := nextRevision)];
      payments := FailAll(payments, target.value, Success);
      Publish(Message(RefundRequested, target.value, nextRevision, bill.contract, target.value, false));
    }

    /** What becomes of a claim when its handler ends. */
    method CloseClaim(m: nat, landing: Landing)
      requires m in claims && claims[m].Processing?
      modifies this`claims
      ensures claims == old(claims)[m := Ending(landing)]
    {
      if landing.Completed? {
        claims := claims[m := Processed];
      } else if landing.FailedEarly? || landing.FailedLate? {
        claims := claims[m := ClaimFailed];
      }
      assert claims[m] == Ending(landing);
    }

    /** Report `m` of the contract side; `landing` says whether and where the delivery breaks off. */
    method TakeReportIn(m: nat, report: Message, other: Option<Id>, landing: Landing)
      modifies this`bills, this`payments, this`outbox, this`claims
      ensures Side() == ReceiveReport(old(Side()), m, report, other, landing)
    {
      if m in claims {
        return;
      }
      claims := claims[m := Processing];
      if Begun(landing) {
        HandleContractActivationFailed(report.invoice, other);
      }
      CloseClaim(m, landing);
    }

    method HandleContractActivationFailedEvent(m: nat, report: Message, other: Option<Id>, landing: Landing)
      requires Valid()
      modifies this`bills, this`payments, this`outbox, this`claims
      ensures Side() == ReceiveReport(old(Side()), m, report, other, landing)
      ensures Valid() && Upholds(old(View()), View())
      ensures Substitutes(old(View()), report.aggregate, other) ==> BillingStaysInStep(old(Side()), Side(), m, report)
    {
      ReportUpheld(Side(), m, report, other, landing);
      TakeReportIn(m, report, other, landing);
    }

    method ReconcileStaleInvoices(stale: seq<Stale>)
      requires Valid() && |stale| <= STALE_BATCH
      modifies this`bills, this`outbox, this`isReconciling
      ensures View() == if old(isReconciling) then old(View()) else Folded(RepublishStale, old(View()), stale)
      ensures isReconciling == old(isReconciling)
      ensures StillPaid(old(View()), stale) ==> Valid() && PaidStay(old(bills), bills)
      ensures StillCurrent(old(View()), stale) && old(InOrder()) ==> InOrder()
    {
      if isReconciling {
        return;
      }
      isReconciling := true;
      for k := 0 to |stale|
        invariant View() == Folded(RepublishStale, old(View()), stale[..k])
      {
        assert stale[..k + 1][..k] == stale[..k] && stale[..k + 1][k] == stale[k];
        var s := stale[k];
        if s.answer.Waiting? && s.invoice in bills && bills[s.invoice].contract.Some? {
          var nextRevision := NextRevision(s.seen);
          bills := bills[s.invoice := bills[s.invoice].(revision := nextRevision)];
          Publish(Message(InvoicePaid, s.invoice, nextRevision, bills[s.invoice].contract, s.invoice, true));
        }
      }
      assert stale[..|stale|] == stale;
      isReconciling := false;
      if StillPaid(old(View()), stale) {
        RoundKeeps(old(View()), stale);
      }
      if StillCurrent(old(View()), stale) && old(InOrder()) {
        RoundKeepsOrder(old(View()), stale);
      }
    }
  }
}
