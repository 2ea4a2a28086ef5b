/** Where the two halves of billing meet: what settling an invoice puts on the ledger is what payouts draw on. */
module PaymentToPayout {
  import opened Sums
  import opened Ledger
  import opened PayoutJobs
  import opened Settlement
  import opened SettlementSafety
  import MoneyMachine

  /** A payout state over the same ledger, knowing the same invoices. */
  predicate SameLedger(b: Books, w: MoneyMachine.World) {
    && w.ledger == b.ledger
    && forall i :: i in b.bills ==> i in w.invoices && w.invoices[i].provider == b.bills[i].provider
  }

  /** Seen from the payouts, the settling transaction is exactly a settle step, whatever its route. */
  lemma SettlingIsAPayoutSettle(b: Books, w: MoneyMachine.World, invoice: Id, link: Id, at: Time, amount: int)
    requires SameLedger(b, w) && Settlement.Payable(b, invoice, link, Some(amount))
    ensures MarkPaid(b, invoice, link, at, Some(amount)).ledger
      == MoneyMachine.Apply(w, MoneyMachine.Settle(invoice, amount)).ledger
  {
  }

  /** The first settlement of an invoice credits it with PayOS's figure, in any reachable books. */
  lemma SettlementCreditsTheFigure(b: Books, w: MoneyMachine.World, invoice: Id, link: Id, at: Time, amount: int)
    requires Sound(b) && MoneyMachine.Inv(w) && SameLedger(b, w) && Unsettled(b, invoice, link)
    ensures Credit(b.ledger, invoice) == 0
    ensures Credit(MarkPaid(b, invoice, link, at, Some(amount)).ledger, invoice) == amount
  {
    assert !HasReference(b.ledger, InvoicePayment(invoice));
    UncreditedWithoutIncome(b.ledger, w, invoice);
    TotalSnoc(b.ledger, IncomeRow(invoice, b.bills[invoice].provider, amount), CreditOf(invoice));
  }

  lemma UncreditedWithoutIncome(ledger: seq<Row>, w: MoneyMachine.World, invoice: Id)
    requires MoneyMachine.Inv(w) && w.ledger == ledger && !HasReference(ledger, InvoicePayment(invoice))
    ensures Credit(ledger, invoice) == 0
    ensures forall r :: r in ledger && IsCredit(r) ==> r.invoice != Some(invoice)
  {
    forall k | 0 <= k < |ledger| && IsCredit(ledger[k]) ensures ledger[k].invoice != Some(invoice) {
      assert MoneyMachine.RowShape(w.invoices, ledger[k]);
    }
    TotalZero(ledger, CreditOf(invoice));
  }

  /** Cash stays at the provider's desk: an invoice without a PayOS link is never credited and no payout run
      offers anything for it. */
  lemma CashIsNeverPaidOut(b: Books, w: MoneyMachine.World, invoice: Id)
    requires Sound(b) && MoneyMachine.Inv(w) && SameLedger(b, w) && !HasTransfer(b.payments, invoice)
    ensures Credit(w.ledger, invoice) == 0
    ensures forall offer :: offer in Eligible(w.ledger, w.invoices) ==> offer.invoice != invoice
  {
    assert !HasReference(b.ledger, InvoicePayment(invoice));
    UncreditedWithoutIncome(b.ledger, w, invoice);
    OffersComeFromRows(w.ledger, w.invoices, w.ledger);
  }
}
