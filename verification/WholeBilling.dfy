/** The two halves of billing over one ledger: invoices being paid and earnings being paid out, interleaved. */
module WholeBilling {
  import opened Sums
  import opened Ledger
  import opened PayoutJobs
  import opened Reservation
  import opened Settlement
  import opened SettlementSafety
  import MM = MoneyMachine
  import MoneySafety

  // The payout engine's own part; ledger and invoices are those of the books.
  datatype Engine = Engine(
    pending: seq<PayoutRequest>,
    reserved: seq<PayoutRequest>,
    created: set<Id>,
    transferred: set<MM.Transfer>,
    refused: set<MM.Transfer>)

  datatype System = System(books: Books, engine: Engine)

  const NEW_SYSTEM := System(NO_BOOKS, Engine([], [], {}, {}, {}))

  function InvoicesOf(bills: map<Id, Bill>): map<Id, Invoice> {
    map i | i in bills :: Invoice(bills[i].provider, bills[i].status.Paid?)
  }

  /** What the payout engine sees. */
  function PayoutView(s: System): MM.World {
    MM.World(s.books.ledger, InvoicesOf(s.books.bills), s.engine.pending, s.engine.reserved, s.engine.created,
             s.engine.transferred, s.engine.refused)
  }

  datatype Move = Billing(step: Step) | Payout(event: MM.Event)

  function Next(s: System, m: Move): System {
    match m
    case Billing(step) => s.(books := Do(s.books, step))
    case Payout(event) =>
      var w := MM.Apply(PayoutView(s), event);
      System(s.books.(ledger := w.ledger), Engine(w.pending, w.reserved, w.created, w.transferred, w.refused))
  }

  /** PayOS never reports less for an invoice than it has before, late deletions spare what has been paid, and the
      payout engine keeps to its own conditions. Invoices are settled by billing alone. */
  ghost predicate Permitted(s: System, m: Move) {
    match m
    case Billing(step) =>
      && Possible(s.books, step) && Spares(s.books, step)
      && forall x: Id :: Credit(s.books.ledger, x) <= Credit(Do(s.books, step).ledger, x)
    case Payout(event) => !event.Settle? && MM.Enabled(PayoutView(s), event)
  }

  /** The states a course of moves passes through, one more than the moves. */
  ghost predicate Course(states: seq<System>, moves: seq<Move>) {
    && |states| == |moves| + 1
    && forall i {:trigger moves[i]} :: 0 <= i < |moves| ==>
        Permitted(states[i], moves[i]) && states[i + 1] == Next(states[i], moves[i])
  }

  ghost predicate AllWell(s: System) {
    Sound(s.books) && MM.Inv(PayoutView(s))
  }

  // ---- Billing as the payout engine sees it -------------------------------------

  /** Only settling an invoice touches the ledger, and then it is the upsert of the invoice's income. */
  ghost predicate Settles(b: Books, after: Books) {
    exists i, amount ::
      i in b.bills && i in after.bills && after.ledger == UpsertIncome(b.ledger, i, b.bills[i].provider, amount)
  }

  lemma MarkPaidSettles(b: Books, invoice: Id, link: Id, paidAt: Time, amount: Option<int>)
    ensures var after := MarkPaid(b, invoice, link, paidAt, amount); after.ledger == b.ledger || Settles(b, after)
  {
    if Settlement.Payable(b, invoice, link, amount) {
      var after := MarkPaid(b, invoice, link, paidAt, amount);
      assert after.ledger == UpsertIncome(b.ledger, invoice, b.bills[invoice].provider, amount.value);
    }
  }

  lemma ActOnSettles(b: Books, invoice: Id, link: Id, report: Report)
    requires invoice in b.bills
    ensures var after := ActOn(b, invoice, link, report); after.ledger == b.ledger || Settles(b, after)
  {
    MarkPaidSettles(b, invoice, link, report.paidAt, report.amount);
    var marked := MarkPaid(b, invoice, link, report.paidAt, report.amount);
    var after := ActOn(b, invoice, link, report);
    if after.ledger != b.ledger {
      var i, figure :| i in b.bills && i in marked.bills
        && marked.ledger == UpsertIncome(b.ledger, i, b.bills[i].provider, figure);
      assert after.bills == marked.bills && after.ledger == marked.ledger;
    }
  }

  lemma StepSettles(b: Books, s: Step)
    ensures Do(b, s).ledger == b.ledger || Settles(b, Do(b, s))
  {
    match s
    case WebhookCall(link, _, report) =>
      var found := FindByKey(b.payments, PayOsLink(link));
      if found.Some? && b.payments[found.value].invoice in b.bills {
        ActOnSettles(b, b.payments[found.value].invoice, link, report);
      }
    case CheckLink(invoice, link, report) =>
      if invoice in b.bills {
        ActOnSettles(b, invoice, link, report);
      }
    case LateSettle(invoice, link, at, amount) => MarkPaidSettles(b, invoice, link, at, amount);
    case QrRequest(invoice, _, report, _, _) =>
      var newest := Newest(b.payments, invoice);
      if newest.Some? && b.payments[newest.value].key.Some? && b.payments[newest.value].key.value.PayOsLink? {
        MarkPaidSettles(b, invoice, b.payments[newest.value].key.value.link, report.paidAt, report.amount);
      }
    case _ =>
  }

  /** Of the invoices the payout invariant only asks that the credited ones are known. */
  lemma InvoicesMatterLittle(w: MM.World, invoices: map<Id, Invoice>)
    requires MM.Inv(w)
    requires forall i :: 0 <= i < |w.ledger| && w.ledger[i].kind.INCOME? ==> w.ledger[i].invoice.value in invoices
    ensures MM.Inv(w.(invoices := invoices))
  {
    var after := w.(invoices := invoices);
    forall i | 0 <= i < |after.ledger| ensures MM.RowShape(after.invoices, after.ledger[i]) {
      assert MM.RowShape(w.invoices, w.ledger[i]);
    }
    assert forall x: Id :: MM.Covered(w, x) ==> MM.Covered(after, x);
  }

  lemma UpsertCredits(w: MM.World, invoice: Id, provider: Id, amount: int)
    requires MM.LedgerShape(w)
    ensures Credit(UpsertIncome(w.ledger, invoice, provider, amount), invoice) == amount
  {
    var after := UpsertIncome(w.ledger, invoice, provider, amount);
    forall i | 0 <= i < |w.ledger| && w.ledger[i].reference != InvoicePayment(invoice)
      ensures CreditOf(invoice)(w.ledger[i]) == 0
    {
      assert MM.RowShape(w.invoices, w.ledger[i]);
    }
    if HasReference(w.ledger, InvoicePayment(invoice)) {
      var k :| 0 <= k < |w.ledger| && w.ledger[k].reference == InvoicePayment(invoice);
      assert MM.RowShape(w.invoices, w.ledger[k]);
      TotalSingle(after, CreditOf(invoice), k);
    } else {
      TotalZero(w.ledger, CreditOf(invoice));
      TotalSnoc(w.ledger, IncomeRow(invoice, provider, amount), CreditOf(invoice));
    }
  }

  lemma SettlingKeepsInv(w: MM.World, invoice: Id, provider: Id, amount: int)
    requires MM.Inv(w) && invoice in w.invoices && w.invoices[invoice].provider == provider
    requires Credit(w.ledger, invoice) <= Credit(UpsertIncome(w.ledger, invoice, provider, amount), invoice)
    ensures var after := MM.Apply(w, MM.Settle(invoice, amount));
      MM.Inv(after) && after.ledger == UpsertIncome(w.ledger, invoice, provider, amount)
      && after == w.(ledger := after.ledger, invoices := after.invoices)
  {
    UpsertCredits(w, invoice, provider, amount);
    MoneySafety.StepKeeps(w, MM.Settle(invoice, amount));
  }

  /** Income rows are about invoices the books still hold. */
  lemma CreditedAreKnown(b: Books, w: MM.World)
    requires Sound(b) && MM.LedgerShape(w) && w.ledger == b.ledger
    ensures forall i :: 0 <= i < |w.ledger| && w.ledger[i].kind.INCOME? ==> w.ledger[i].invoice.value in b.bills
  {
    forall i | 0 <= i < |w.ledger| && w.ledger[i].kind.INCOME? ensures w.ledger[i].invoice.value in b.bills {
      assert MM.RowShape(w.invoices, w.ledger[i]);
      assert b.ledger[i].reference.InvoicePayment?;
    }
  }

  lemma BillingKeepsWell(s: System, step: Step)
    requires AllWell(s) && Permitted(s, Billing(step))
    ensures AllWell(Next(s, Billing(step)))
  {
    var t := Next(s, Billing(step));
    var w := PayoutView(s);
    StepKeeps(s.books, step);
    StepSettles(s.books, step);
    var settled := w;
    if t.books.ledger != s.books.ledger {
      var i, amount :| i in s.books.bills && i in t.books.bills
        && t.books.ledger == UpsertIncome(s.books.ledger, i, s.books.bills[i].provider, amount);
      SettlingKeepsInv(w, i, s.books.bills[i].provider, amount);
      settled := MM.Apply(w, MM.Settle(i, amount));
    }
    CreditedAreKnown(t.books, settled);
    InvoicesMatterLittle(settled, InvoicesOf(t.books.bills));
    assert PayoutView(t) == settled.(invoices := InvoicesOf(t.books.bills));
  }

  // ---- Payouts as billing sees them ---------------------------------------------

  /** Payouts leave every reference where it is and add payout shares only. */
  predicate AddsShares(before: seq<Row>, after: seq<Row>) {
    && |before| <= |after|
    && (forall i :: 0 <= i < |before| ==> after[i].reference == before[i].reference)
    && (forall i :: |before| <= i < |after| ==> after[i].reference.PayoutShare?)
  }

  lemma {:induction false} MissingAreShares(ledger: seq<Row>, q: PayoutRequest, lines: seq<Line>)
    ensures forall i :: 0 <= i < |Missing(ledger, q, lines)| ==> Missing(ledger, q, lines)[i].reference.PayoutShare?
  {
    if lines != [] {
      MissingAreShares(ledger, q, lines[..|lines| - 1]);
    }
  }

  lemma PayoutsAddShares(w: MM.World, e: MM.Event)
    requires !e.Settle?
    ensures AddsShares(w.ledger, MM.Apply(w, e).ledger) && MM.Apply(w, e).invoices == w.invoices
  {
    if e.Reserve? {
      MissingAreShares(w.ledger, e.request, Lines(e.request.allocations));
    }
  }

  lemma SharesKeepSound(b: Books, ledger: seq<Row>)
    requires Sound(b) && AddsShares(b.ledger, ledger) && UniqueReferences(ledger)
    ensures Sound(b.(ledger := ledger))
  {
    forall r | 0 <= r < |ledger| && ledger[r].reference.InvoicePayment?
      ensures IsPaid(b.bills, ledger[r].reference.paid) && HasTransfer(b.payments, ledger[r].reference.paid)
    {
      assert b.ledger[r].reference == ledger[r].reference;
    }
    forall k | 0 <= k < |b.payments| && b.payments[k].paidBy.Transfer? && b.payments[k].status.Success?
      ensures HasReference(ledger, InvoicePayment(b.payments[k].invoice))
    {
      var r :| 0 <= r < |b.ledger| && b.ledger[r].reference == InvoicePayment(b.payments[k].invoice);
      assert ledger[r].reference == b.ledger[r].reference;
    }
  }

  lemma PayoutKeepsWell(s: System, e: MM.Event)
    requires AllWell(s) && Permitted(s, Payout(e))
    ensures AllWell(Next(s, Payout(e)))
  {
    var w := PayoutView(s);
    MoneySafety.StepKeeps(w, e);
    PayoutsAddShares(w, e);
    SharesKeepSound(s.books, MM.Apply(w, e).ledger);
    assert PayoutView(Next(s, Payout(e))) == MM.Apply(w, e);
  }

  lemma {:induction false} CourseKeepsWell(states: seq<System>, moves: seq<Move>, k: nat)
    requires Course(states, moves) && AllWell(states[0]) && k <= |moves|
    ensures AllWell(states[k])
  {
    if k > 0 {
      CourseKeepsWell(states, moves, k - 1);
      match moves[k - 1]
      case Billing(step) => BillingKeepsWell(states[k - 1], step);
      case Payout(event) => PayoutKeepsWell(states[k - 1], event);
    }
  }

  lemma NewSystemIsWell()
    ensures AllWell(NEW_SYSTEM)
  {
    MoneySafety.StartIsFine(map[]);
    assert PayoutView(NEW_SYSTEM) == MM.Start(map[]);
  }

  /** However payments and payouts interleave, from empty books on: the payment records stay sound, and what PayOS
      has moved to providers for an invoice is within its live payout rows, which with every queued claim are
      within its income. */
  lemma SoundAndSolvent(states: seq<System>, moves: seq<Move>, k: nat, invoice: Id)
    requires Course(states, moves) && states[0] == NEW_SYSTEM && k <= |moves|
    ensures var w := PayoutView(states[k]);
      && Sound(states[k].books)
      && MM.PaidOut(w, invoice) <= Debit(w.ledger, invoice)
      && Debit(w.ledger, invoice) + MM.Promised(w, invoice) <= Credit(w.ledger, invoice)
      && 0 <= MM.Promised(w, invoice)
  {
    NewSystemIsWell();
    CourseKeepsWell(states, moves, k);
    MoneySafety.InvSolvent(PayoutView(states[k]), invoice);
  }

  /** So money goes out for an invoice only if it is paid and has come in through PayOS. */
  lemma PaidOutMeansPaidIn(states: seq<System>, moves: seq<Move>, k: nat, invoice: Id)
    requires Course(states, moves) && states[0] == NEW_SYSTEM && k <= |moves|
    requires MM.PaidOut(PayoutView(states[k]), invoice) > 0
    ensures IsPaid(states[k].books.bills, invoice) && HasTransfer(states[k].books.payments, invoice)
  {
    SoundAndSolvent(states, moves, k, invoice);
    NewSystemIsWell();
    CourseKeepsWell(states, moves, k);
    var w := PayoutView(states[k]);
    if !HasReference(w.ledger, InvoicePayment(invoice)) {
      forall i | 0 <= i < |w.ledger| ensures CreditOf(invoice)(w.ledger[i]) == 0 {
        assert MM.RowShape(w.invoices, w.ledger[i]);
      }
      TotalZero(w.ledger, CreditOf(invoice));
    }
  }
}
