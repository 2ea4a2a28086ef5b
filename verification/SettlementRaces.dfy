/** What handlers working from a stale look at an invoice can and cannot spoil: message revisions, and the
    single successful payment. */
module SettlementRaces {
  import opened Sums
  import opened Ledger
  import opened Outbox
  import opened Settlement
  import opened SettlementSafety

  // ---- Revisions ------------------------------------------------------------

  predicate Increasing(outbox: seq<Message>) {
    forall j, k :: 0 <= j < k < |outbox| && outbox[j].aggregate == outbox[k].aggregate ==>
      outbox[j].revision < outbox[k].revision
  }

  predicate Bounded(bills: map<Id, Bill>, outbox: seq<Message>) {
    && (forall i :: i in bills ==> bills[i].revision >= 1)
    && (forall k :: 0 <= k < |outbox| && outbox[k].aggregate in bills ==>
          outbox[k].revision <= bills[outbox[k].aggregate].revision)
  }

  predicate Speaks(outbox: seq<Message>, invoice: Id, revision: int) {
    exists k :: 0 <= k < |outbox| && outbox[k].aggregate == invoice && outbox[k].revision == revision
  }

  predicate LastWord(bills: map<Id, Bill>, outbox: seq<Message>) {
    forall i :: i in bills && IsPaid(bills, i) && bills[i].contract.Some? ==> Speaks(outbox, i, bills[i].revision)
  }

  /** An invoice's messages carry strictly increasing revisions, never ahead of the invoice, and the last one
      of a paid invoice with a contract carries the invoice's revision. */
  predicate Ordered(bills: map<Id, Bill>, outbox: seq<Message>) {
    Increasing(outbox) && Bounded(bills, outbox) && LastWord(bills, outbox)
  }

  predicate UpToDate(b: Books, s: Step) {
    s.Reconcile? && s.invoice in b.bills ==> s.seen == b.bills[s.invoice].revision
  }

  /** An invoice moves to its next revision with a message, or without one if it has no contract. */
  lemma BumpOrdered(bills: map<Id, Bill>, outbox: seq<Message>, invoice: Id, bill: Bill, m: Message)
    requires Ordered(bills, outbox) && invoice in bills
    requires bill.revision == bills[invoice].revision + 1
    requires m.aggregate == invoice && m.revision == bill.revision
    ensures Ordered(bills[invoice := bill], PublishLocal(outbox, m))
    ensures bill.contract.None? ==> Ordered(bills[invoice := bill], outbox)
  {
    var after := bills[invoice := bill];
    assert !Published(outbox, m);
    var longer := PublishLocal(outbox, m);
    forall i | i in after && IsPaid(after, i) && after[i].contract.Some? ensures Speaks(longer, i, after[i].revision) {
      if i == invoice {
        assert longer[|outbox|] == m;
      } else {
        assert Speaks(outbox, i, bills[i].revision);
        var k :| 0 <= k < |outbox| && outbox[k].aggregate == i && outbox[k].revision == bills[i].revision;
        assert longer[k] == outbox[k];
      }
    }
  }

  lemma PayingOrdered(bills: map<Id, Bill>, outbox: seq<Message>, invoice: Id)
    requires Ordered(bills, outbox) && invoice in bills
    ensures Ordered(bills[invoice := Paying(bills[invoice])], Announced(outbox, invoice, bills[invoice]))
  {
    BumpOrdered(bills, outbox, invoice, Paying(bills[invoice]), PaidMessage(invoice, bills[invoice]));
  }

  /** Every handler that may settle an invoice leaves bills and messages alone or pays exactly one invoice. */
  predicate PaysAtMostOne(b: Books, after: Books) {
    || (after.bills == b.bills && after.outbox == b.outbox)
    || exists i :: i in b.bills && after.bills == b.bills[i := Paying(b.bills[i])]
         && after.outbox == Announced(b.outbox, i, b.bills[i])
  }

  lemma HandlersPayAtMostOne(b: Books, s: Step)
    requires s.WebhookCall? || s.CheckLink? || s.LateSettle? || s.LateFail? || s.QrRequest? || s.CashDesk?
      || s.LateRevive? || s.LateLink?
    ensures PaysAtMostOne(b, Do(b, s))
  {
  }

  lemma FewerOrdered(bills: map<Id, Bill>, outbox: seq<Message>, after: map<Id, Bill>)
    requires Ordered(bills, outbox)
    requires forall i :: i in after ==> i in bills && after[i].revision == bills[i].revision
    requires forall i :: i in after && IsPaid(after, i) ==> after[i] == bills[i]
    ensures Ordered(after, outbox)
  {
    forall i | i in after && IsPaid(after, i) && after[i].contract.Some? ensures Speaks(outbox, i, after[i].revision) {
      assert IsPaid(bills, i);
    }
  }

  lemma NewBillOrdered(bills: map<Id, Bill>, outbox: seq<Message>, invoice: Id, bill: Bill, longer: seq<Message>)
    requires Ordered(bills, outbox) && invoice !in bills && bill.revision == 1 && !bill.status.Paid?
    requires forall k :: 0 <= k < |outbox| ==> outbox[k].aggregate != invoice
    requires longer == outbox
      || (|longer| == |outbox| + 1 && longer[..|outbox|] == outbox
          && longer[|outbox|].aggregate == invoice && longer[|outbox|].revision == 1)
    ensures Ordered(bills[invoice := bill], longer)
  {
    var after := bills[invoice := bill];
    assert forall k :: 0 <= k < |outbox| ==> longer[k] == outbox[k];
    forall i | i in after && IsPaid(after, i) && after[i].contract.Some? ensures Speaks(longer, i, after[i].revision) {
      assert IsPaid(bills, i) && Speaks(outbox, i, bills[i].revision);
      var k :| 0 <= k < |outbox| && outbox[k].aggregate == i && outbox[k].revision == bills[i].revision;
      assert longer[k] == outbox[k];
    }
  }

  lemma NewBillStepOrdered(b: Books, s: Step)
    requires s.Prepayment? || s.LatePrepayment? || s.Fine? || s.LateFine?
    requires Ordered(b.bills, b.outbox) && Possible(b, s)
    ensures var after := Do(b, s); Ordered(after.bills, after.outbox)
  {
    var after := Do(b, s);
    if after != b {
      NewBillOrdered(b.bills, b.outbox, s.invoice, after.bills[s.invoice], after.outbox);
    }
  }

  lemma OrderedStep(b: Books, s: Step)
    requires Ordered(b.bills, b.outbox) && Possible(b, s) && UpToDate(b, s)
    ensures var after := Do(b, s); Ordered(after.bills, after.outbox)
  {
    var after := Do(b, s);
    match s
    case Prepayment(_, _, _, _) => NewBillStepOrdered(b, s);
    case LatePrepayment(_, _, _, _) => NewBillStepOrdered(b, s);
    case LateFine(_, _, _, _, _) => NewBillStepOrdered(b, s);
    case Fine(_, _, _, _, _) => NewBillStepOrdered(b, s);
    case LateDelete(_) => FewerOrdered(b.bills, b.outbox, after.bills);
    case FallsDue(_) => FewerOrdered(b.bills, b.outbox, after.bills);
    case ContractGone(_) => FewerOrdered(b.bills, b.outbox, after.bills);
    case ServiceCancelled(_) => FewerOrdered(b.bills, b.outbox, after.bills);
    case ActivationFails(invoice) => RevisionOrdered(b, s);
    case Reconcile(invoice, seen) => RevisionOrdered(b, s);
    case _ =>
      HandlersPayAtMostOne(b, s);
      if after.bills != b.bills || after.outbox != b.outbox {
        var i :| i in b.bills && after.bills == b.bills[i := Paying(b.bills[i])]
          && after.outbox == Announced(b.outbox, i, b.bills[i]);
        PayingOrdered(b.bills, b.outbox, i);
      }
  }

  lemma RevisionOrdered(b: Books, s: Step)
    requires s.ActivationFails? || s.Reconcile?
    requires Ordered(b.bills, b.outbox) && Possible(b, s) && UpToDate(b, s)
    ensures var after := Do(b, s); Ordered(after.bills, after.outbox)
  {
    if s.invoice in b.bills {
      var bill := b.bills[s.invoice];
      var next := bill.revision + 1;
      var m := Message(if s.Reconcile? then InvoicePaid else RefundRequested, s.invoice, next, bill.contract,
                       s.invoice, s.Reconcile?);
      BumpOrdered(b.bills, b.outbox, s.invoice, bill.(revision := next), m);
    }
  }

  ghost predicate FreshHistory(b: Books, steps: seq<Step>)
    decreases |steps|
  {
    steps == []
    || (Possible(b, steps[0]) && UpToDate(b, steps[0]) && FreshHistory(Do(b, steps[0]), steps[1..]))
  }

  lemma {:induction false} HistoryOrdered(b: Books, steps: seq<Step>)
    requires Ordered(b.bills, b.outbox) && FreshHistory(b, steps)
    ensures var after := End(b, steps); Ordered(after.bills, after.outbox)
    decreases |steps|
  {
    if steps != [] {
      OrderedStep(b, steps[0]);
      HistoryOrdered(Do(b, steps[0]), steps[1..]);
    }
  }

  /** As long as the maintenance worker writes from the revision the invoice still has, the messages of every
      invoice carry strictly increasing revisions, so no receiver ordering by revision ever loses one. */
  lemma RevisionsIncrease(steps: seq<Step>, j: nat, k: nat)
    requires FreshHistory(NO_BOOKS, steps)
    requires j < k < |End(NO_BOOKS, steps).outbox|
    requires End(NO_BOOKS, steps).outbox[j].aggregate == End(NO_BOOKS, steps).outbox[k].aggregate
    ensures End(NO_BOOKS, steps).outbox[j].revision < End(NO_BOOKS, steps).outbox[k].revision
  {
    HistoryOrdered(NO_BOOKS, steps);
  }

  /** The worker writes back the revision it read plus one. The messages keep their order exactly when nothing
      has moved the invoice since, or this very message is out already and is dropped. They stay level with
      the invoice as well exactly when, in the latter case, it moved by that message alone. */
  lemma RepublishOrderedExactly(b: Books, invoice: Id, seen: int)
    requires Ordered(b.bills, b.outbox)
    requires IsPaid(b.bills, invoice) && b.bills[invoice].contract.Some?
    requires 1 <= seen <= b.bills[invoice].revision
    ensures var after := Republish(b, invoice, seen);
      var now := b.bills[invoice].revision;
      var m := Message(InvoicePaid, invoice, seen + 1, b.bills[invoice].contract, invoice, true);
      && (Increasing(after.outbox) <==> seen == now || Published(b.outbox, m))
      && (Ordered(after.bills, after.outbox) <==> seen == now || (seen + 1 == now && Published(b.outbox, m)))
  {
    var after := Republish(b, invoice, seen);
    var bill := b.bills[invoice];
    var m := Message(InvoicePaid, invoice, seen + 1, bill.contract, invoice, true);
    if seen == bill.revision {
      BumpOrdered(b.bills, b.outbox, invoice, bill.(revision := seen + 1), m);
    } else {
      assert Speaks(b.outbox, invoice, bill.revision);
      var k :| 0 <= k < |b.outbox| && b.outbox[k].aggregate == invoice && b.outbox[k].revision == bill.revision;
      assert after.outbox[k] == b.outbox[k];
      if !Published(b.outbox, m) {
        assert after.outbox[|b.outbox|] == m;
        assert !Increasing(after.outbox);
      } else if seen + 1 < bill.revision {
        assert !Bounded(after.bills, after.outbox);
      } else {
        assert after.bills == b.bills;
      }
    }
  }

  // ---- One successful payment -------------------------------------------------

  /** An invoice has at most one successful payment. */
  predicate PaidOnce(payments: seq<Payment>) {
    forall j, k :: 0 <= j < k < |payments| && payments[j].invoice == payments[k].invoice ==>
      !(payments[j].status.Success? && payments[k].status.Success?)
  }

  /** The settling transaction leaves an invoice with one successful payment exactly when none but this link's
      has succeeded. */
  lemma SecondSuccessExactly(b: Books, invoice: Id, link: Id, paidAt: Time, amount: Option<int>)
    requires PaidOnce(b.payments) && Payable(b, invoice, link, amount)
    ensures PaidOnce(MarkPaid(b, invoice, link, paidAt, amount).payments) <==>
      forall k :: 0 <= k < |b.payments| && b.payments[k].invoice == invoice && b.payments[k].status.Success? ==>
        k == FindByKey(b.payments, PayOsLink(link)).value
  {
    var after := MarkPaid(b, invoice, link, paidAt, amount).payments;
    var found := FindByKey(b.payments, PayOsLink(link)).value;
    assert after[found].status.Success? && after[found].invoice == invoice;
    if k :| 0 <= k < |b.payments| && b.payments[k].invoice == invoice && b.payments[k].status.Success? && k != found {
      assert after[k] == b.payments[k];
      if k < found {
        assert !PaidOnce(after);
      }
    }
  }

  /** A settling transaction still finds the invoice unpaid, as its handler did. */
  predicate Prompt(b: Books, s: Step) {
    s.LateSettle? ==> !IsPaid(b.bills, s.invoice)
  }

  lemma UnpaidHasNoSuccess(b: Books, invoice: Id)
    requires PaymentsFine(b.bills, b.payments) && !IsPaid(b.bills, invoice)
    ensures forall k :: 0 <= k < |b.payments| && b.payments[k].invoice == invoice ==> !b.payments[k].status.Success?
  {
    assert forall k :: 0 <= k < |b.payments| ==> PaymentFine(b.bills, b.payments[k]);
  }

  lemma MarkPaidOnce(b: Books, invoice: Id, link: Id, paidAt: Time, amount: Option<int>)
    requires PaymentsFine(b.bills, b.payments) && PaidOnce(b.payments) && !IsPaid(b.bills, invoice)
    ensures PaidOnce(MarkPaid(b, invoice, link, paidAt, amount).payments)
  {
    UnpaidHasNoSuccess(b, invoice);
    if Payable(b, invoice, link, amount) {
      SecondSuccessExactly(b, invoice, link, paidAt, amount);
    }
  }

  lemma PaidOnceWithout(payments: seq<Payment>, kept: Payment -> bool)
    requires PaidOnce(payments)
    ensures PaidOnce(Filter(payments, kept))
  {
    var after := Filter(payments, kept);
    forall j, k | 0 <= j < k < |after| && after[j].invoice == after[k].invoice
      ensures !(after[j].status.Success? && after[k].status.Success?)
    {
      var x, y := FilterPair(payments, kept, j, k);
    }
  }

  lemma SettlersPayOnce(b: Books, s: Step)
    requires s.WebhookCall? || s.CheckLink? || s.QrRequest?
    requires PaymentsFine(b.bills, b.payments) && PaidOnce(b.payments)
    ensures PaidOnce(Do(b, s).payments)
  {
    match s
    case WebhookCall(link, _, report) =>
      var found := FindByKey(b.payments, PayOsLink(link));
      if found.Some? && Unsettled(b, b.payments[found.value].invoice, link) {
        MarkPaidOnce(b, b.payments[found.value].invoice, link, report.paidAt, report.amount);
      }
    case CheckLink(invoice, link, report) =>
      if Unsettled(b, invoice, link) {
        MarkPaidOnce(b, invoice, link, report.paidAt, report.amount);
      }
    case QrRequest(invoice, customer, report, _, _) =>
      var newest := Newest(b.payments, invoice);
      if newest.Some? && b.payments[newest.value].key.Some? && b.payments[newest.value].key.value.PayOsLink?
        && !IsPaid(b.bills, invoice) {
        MarkPaidOnce(b, invoice, b.payments[newest.value].key.value.link, report.paidAt, report.amount);
      }
  }

  lemma PaidOnceStep(b: Books, s: Step)
    requires PaymentsFine(b.bills, b.payments) && PaidOnce(b.payments) && Prompt(b, s)
    ensures PaidOnce(Do(b, s).payments)
  {
    match s
    case WebhookCall(_, _, _) => SettlersPayOnce(b, s);
    case CheckLink(_, _, _) => SettlersPayOnce(b, s);
    case QrRequest(_, _, _, _, _) => SettlersPayOnce(b, s);
    case LateSettle(invoice, link, at, amount) => MarkPaidOnce(b, invoice, link, at, amount);
    case CashDesk(invoice, _, _, _) =>
      if !IsPaid(b.bills, invoice) {
        UnpaidHasNoSuccess(b, invoice);
      }
    case ContractGone(contract) =>
      PaidOnceWithout(b.payments, (p: Payment) => p.invoice !in UnpaidOf(b, contract));
    case ServiceCancelled(contract) =>
      PaidOnceWithout(b.payments, (p: Payment) => p.invoice !in UnpaidOf(b, contract));
    case LateDelete(read) => PaidOnceWithout(b.payments, (p: Payment) => p.invoice !in read);
    case _ =>
  }

  ghost predicate PromptHistory(b: Books, steps: seq<Step>)
    decreases |steps|
  {
    steps == []
    || (Possible(b, steps[0]) && Prompt(b, steps[0]) && PromptHistory(Do(b, steps[0]), steps[1..]))
  }

  lemma {:induction false} HistoryPaidOnce(b: Books, steps: seq<Step>)
    requires PaymentsFine(b.bills, b.payments) && PaidOnce(b.payments) && PromptHistory(b, steps)
    ensures PaidOnce(End(b, steps).payments)
    decreases |steps|
  {
    if steps != [] {
      PaidOnceStep(b, steps[0]);
      PaymentsStep(b, steps[0]);
      HistoryPaidOnce(Do(b, steps[0]), steps[1..]);
    }
  }

  /** With looking and settling taken as one step no invoice is ever successfully paid twice, by whatever mix of cash,
      webhooks, polls, passes and QR requests. */
  lemma NobodyPaysTwice(steps: seq<Step>)
    requires PromptHistory(NO_BOOKS, steps)
    ensures PaidOnce(End(NO_BOOKS, steps).payments)
  {
    HistoryPaidOnce(NO_BOOKS, steps);
  }

  /** Nothing is left pending on a paid invoice. */
  predicate Closed(bills: map<Id, Bill>, payments: seq<Payment>) {
    forall k :: 0 <= k < |payments| && IsPaid(bills, payments[k].invoice) ==> !payments[k].status.Pending?
  }

  /** An unpaid invoice has no payment but one transfer. */
  lemma UnpaidHasOneLink(b: Books, invoice: Id, j: nat, k: nat)
    requires PaymentsFine(b.bills, b.payments) && !IsPaid(b.bills, invoice)
    requires j < |b.payments| && k < |b.payments|
    requires b.payments[j].invoice == invoice && b.payments[k].invoice == invoice
    ensures j == k
  {
    assert PaymentFine(b.bills, b.payments[j]) && PaymentFine(b.bills, b.payments[k]);
    assert forall x, y :: 0 <= x < y < |b.payments| ==> Apart(b.payments[x], b.payments[y]);
  }

  lemma MarkPaidCloses(b: Books, invoice: Id, link: Id, paidAt: Time, amount: Option<int>)
    requires PaymentsFine(b.bills, b.payments) && Closed(b.bills, b.payments)
    ensures var after := MarkPaid(b, invoice, link, paidAt, amount); Closed(after.bills, after.payments)
  {
    var after := MarkPaid(b, invoice, link, paidAt, amount);
    if Payable(b, invoice, link, amount) {
      var found := FindByKey(b.payments, PayOsLink(link)).value;
      forall k | 0 <= k < |after.payments| && IsPaid(after.bills, after.payments[k].invoice)
        ensures !after.payments[k].status.Pending?
      {
        if b.payments[k].invoice == invoice && !IsPaid(b.bills, invoice) {
          UnpaidHasOneLink(b, invoice, k, found);
        }
      }
    }
  }

  lemma WithoutCloses(b: Books, ids: set<Id>)
    requires Closed(b.bills, b.payments)
    ensures var after := Without(b, ids); Closed(after.bills, after.payments)
  {
    var after := Without(b, ids);
    forall k | 0 <= k < |after.payments| && IsPaid(after.bills, after.payments[k].invoice)
      ensures !after.payments[k].status.Pending?
    {
      var i := FilterIndex(b.payments, (p: Payment) => p.invoice !in ids, k);
    }
  }

  lemma QrCloses(b: Books, invoice: Id, customer: Id, report: Report, saved: bool, newLink: Id)
    requires PaymentsFine(b.bills, b.payments) && Closed(b.bills, b.payments)
    ensures var after := CreateQr(b, invoice, customer, report, saved, newLink); Closed(after.bills, after.payments)
  {
    var newest := Newest(b.payments, invoice);
    if newest.Some? && b.payments[newest.value].key.Some? && b.payments[newest.value].key.value.PayOsLink? {
      MarkPaidCloses(b, invoice, b.payments[newest.value].key.value.link, report.paidAt, report.amount);
    }
  }

  lemma NewsCloses(b: Books, s: Step)
    requires s.WebhookCall? || s.CheckLink?
    requires PaymentsFine(b.bills, b.payments) && Closed(b.bills, b.payments)
    ensures var after := Do(b, s); Closed(after.bills, after.payments)
  {
    var found := FindByKey(b.payments, PayOsLink(s.link));
    if found.Some? {
      MarkPaidCloses(b, b.payments[found.value].invoice, s.link, s.report.paidAt, s.report.amount);
    }
  }

  /** A QR request's write lands on an invoice that has been paid since the request looked. */
  predicate Overtaken(b: Books, s: Step) {
    match s
    case LateRevive(invoice, link) => HasLink(b, invoice, link) && IsPaid(b.bills, invoice)
    case LateLink(invoice, link) => FindByKey(b.payments, PayOsLink(link)).None? && IsPaid(b.bills, invoice)
    case _ => false
  }

  lemma QrWriteClosesExactly(b: Books, s: Step)
    requires s.LateRevive? || s.LateLink?
    requires Closed(b.bills, b.payments)
    ensures var after := Do(b, s); Closed(after.bills, after.payments) <==> !Overtaken(b, s)
  {
    var after := Do(b, s);
    if Overtaken(b, s) {
      var k := if s.LateRevive? then FindByKey(b.payments, PayOsLink(s.link)).value else |b.payments|;
      assert after.payments[k].status.Pending? && IsPaid(after.bills, after.payments[k].invoice);
    }
  }

  lemma ClosedStep(b: Books, s: Step)
    requires PaymentsFine(b.bills, b.payments) && Closed(b.bills, b.payments) && Possible(b, s)
    ensures var after := Do(b, s); Closed(after.bills, after.payments) <==> !Overtaken(b, s)
  {
    match s
    case WebhookCall(_, _, _) => NewsCloses(b, s);
    case CheckLink(_, _, _) => NewsCloses(b, s);
    case LateSettle(invoice, link, at, amount) => MarkPaidCloses(b, invoice, link, at, amount);
    case QrRequest(invoice, customer, report, saved, link) => QrCloses(b, invoice, customer, report, saved, link);
    case ContractGone(contract) => WithoutCloses(b, UnpaidOf(b, contract));
    case ServiceCancelled(contract) => WithoutCloses(b, UnpaidOf(b, contract));
    case LateDelete(read) => WithoutCloses(b, read);
    case LateRevive(_, _) => QrWriteClosesExactly(b, s);
    case LateLink(_, _) => QrWriteClosesExactly(b, s);
    case _ =>
  }

  /** At no moment of the history does a paid invoice have a pending payment. */
  ghost predicate NeverPending(b: Books, steps: seq<Step>)
    decreases |steps|
  {
    Closed(b.bills, b.payments) && (steps == [] || NeverPending(Do(b, steps[0]), steps[1..]))
  }

  ghost predicate NeverOvertaken(b: Books, steps: seq<Step>)
    decreases |steps|
  {
    steps == [] || (!Overtaken(b, steps[0]) && NeverOvertaken(Do(b, steps[0]), steps[1..]))
  }

  lemma {:induction false} PendingExactlyBy(b: Books, steps: seq<Step>)
    requires PaymentsFine(b.bills, b.payments) && Closed(b.bills, b.payments) && History(b, steps)
    ensures NeverPending(b, steps) <==> NeverOvertaken(b, steps)
    ensures NeverPending(b, steps) ==> var after := End(b, steps); Closed(after.bills, after.payments)
    decreases |steps|
  {
    if steps != [] {
      ClosedStep(b, steps[0]);
      if !Overtaken(b, steps[0]) {
        PaymentsStep(b, steps[0]);
        PendingExactlyBy(Do(b, steps[0]), steps[1..]);
      }
    }
  }

  /** Over every history, whatever runs late in it: a paid invoice never has a pending payment exactly when no QR
      request's write finds its invoice paid in the meantime. The request looks at the invoice, waits for PayOS,
      and then writes without looking again. */
  lemma LeftPendingExactly(steps: seq<Step>)
    requires History(NO_BOOKS, steps)
    ensures NeverPending(NO_BOOKS, steps) <==> NeverOvertaken(NO_BOOKS, steps)
  {
    PendingExactlyBy(NO_BOOKS, steps);
  }

  /** So as long as none does, no payment of a paid invoice is pending, however the invoice came to be paid. */
  lemma NoneLeftPending(steps: seq<Step>, p: Payment)
    requires History(NO_BOOKS, steps) && NeverOvertaken(NO_BOOKS, steps)
    requires p in End(NO_BOOKS, steps).payments && IsPaid(End(NO_BOOKS, steps).bills, p.invoice)
    ensures !p.status.Pending?
  {
    PendingExactlyBy(NO_BOOKS, steps);
  }

  // ---- One fine for a case ------------------------------------------------------

  predicate OneFineEach(bills: map<Id, Bill>) {
    forall i, j :: i in bills && j in bills && bills[i].fine.Some? && bills[i].fine == bills[j].fine ==> i == j
  }

  /** A fine is made out by a handler that found none for its case, when there is one by now. */
  predicate Doubles(b: Books, s: Step) {
    s.LateFine? && Fined(b, s.prefix)
  }

  /** Only the two fine handlers put a case prefix on an invoice. */
  lemma StepFines(b: Books, s: Step)
    requires !s.LateFine?
    ensures var after := Do(b, s).bills;
      forall i :: i in after && after[i].fine.Some? ==>
        (i in b.bills && after[i].fine == b.bills[i].fine)
        || (s.Fine? && i == s.invoice && after[i].fine == Some(s.prefix) && !Fined(b, s.prefix))
  {
    if s.WebhookCall? || s.CheckLink? || s.LateSettle? || s.LateFail? || s.QrRequest? || s.CashDesk?
      || s.LateRevive? || s.LateLink?
    {
      HandlersPayAtMostOne(b, s);
    }
  }

  lemma FineStep(b: Books, s: Step)
    requires OneFineEach(b.bills) && Possible(b, s)
    ensures OneFineEach(Do(b, s).bills) <==> !Doubles(b, s)
  {
    if s.LateFine? {
      var after := Do(b, s).bills;
      assert after[s.invoice].fine == Some(s.prefix);
      if Fined(b, s.prefix) {
        var i :| i in b.bills && b.bills[i].fine == Some(s.prefix);
        assert after[i].fine == after[s.invoice].fine;
      }
    } else {
      StepFines(b, s);
    }
  }

  ghost predicate AlwaysOneFineEach(b: Books, steps: seq<Step>)
    decreases |steps|
  {
    OneFineEach(b.bills) && (steps == [] || AlwaysOneFineEach(Do(b, steps[0]), steps[1..]))
  }

  ghost predicate NeverDoubles(b: Books, steps: seq<Step>)
    decreases |steps|
  {
    steps == [] || (!Doubles(b, steps[0]) && NeverDoubles(Do(b, steps[0]), steps[1..]))
  }

  lemma {:induction false} FinesExactlyBy(b: Books, steps: seq<Step>)
    requires OneFineEach(b.bills) && History(b, steps)
    ensures AlwaysOneFineEach(b, steps) <==> NeverDoubles(b, steps)
    decreases |steps|
  {
    if steps != [] {
      FineStep(b, steps[0]);
      if !Doubles(b, steps[0]) {
        FinesExactlyBy(Do(b, steps[0]), steps[1..]);
      }
    }
  }

  /** Over every history no two invoices are ever fines for one case prefix, exactly when no handler makes one out
      that found none before and would find one now. Finding and making share a transaction, but nothing locks
      the prefix between them. */
  lemma TwoFinesExactly(steps: seq<Step>)
    requires History(NO_BOOKS, steps)
    ensures AlwaysOneFineEach(NO_BOOKS, steps) <==> NeverDoubles(NO_BOOKS, steps)
  {
    FinesExactlyBy(NO_BOOKS, steps);
  }

  // ---- Reachable trouble -------------------------------------------------------

  lemma HistoryStarts(b: Books, s: Step, rest: seq<Step>)
    requires Possible(b, s) && History(Do(b, s), rest)
    ensures History(b, [s] + rest) && End(b, [s] + rest) == End(Do(b, s), rest)
  {
    assert ([s] + rest)[1..] == rest;
  }

  function LinkedBooks(invoice: Id, link: Id): Books {
    Books(map[invoice := Bill(1, Some(2), Some(3), None, Unpaid, 1)],
          [Payment(invoice, Transfer, Some(PayOsLink(link)), Pending, None)], [], [], [])
  }

  /** A prepaid contract's invoice is made and its customer asks for a QR code. */
  function Opening(invoice: Id, link: Id): seq<Step> {
    [Prepayment(invoice, 1, 2, 3), QrRequest(invoice, 2, Report(LinkOpen, 0, None), true, link)]
  }

  lemma OpeningLinks(invoice: Id, link: Id, rest: seq<Step>)
    requires History(LinkedBooks(invoice, link), rest)
    ensures History(NO_BOOKS, Opening(invoice, link) + rest)
    ensures End(NO_BOOKS, Opening(invoice, link) + rest) == End(LinkedBooks(invoice, link), rest)
  {
    var opening := Opening(invoice, link);
    var billed := Do(NO_BOOKS, opening[0]);
    assert Do(billed, opening[1]) == LinkedBooks(invoice, link);
    HistoryStarts(billed, opening[1], rest);
    HistoryStarts(NO_BOOKS, opening[0], [opening[1]] + rest);
    assert opening + rest == [opening[0]] + ([opening[1]] + rest);
  }

  /** Taken apart, they can: the invoice is paid in cash between a handler's look and its transaction. */
  lemma CashOvertakesSettlement(invoice: Id, link: Id, at: Time, amount: int)
    ensures var steps := Opening(invoice, link)
                         + [CashDesk(invoice, 1, None, at), LateSettle(invoice, link, at, Some(amount))];
      History(NO_BOOKS, steps) && !PaidOnce(End(NO_BOOKS, steps).payments)
  {
    var linked := LinkedBooks(invoice, link);
    var cash := CashDesk(invoice, 1, None, at);
    var late := LateSettle(invoice, link, at, Some(amount));
    var paid := Do(linked, cash);
    assert paid.payments[1] == CashPayment(invoice, None, at) && paid.payments[0].key == Some(PayOsLink(link));
    var twice := Do(paid, late);
    assert FindByKey(paid.payments, PayOsLink(link)) == Some(0);
    assert twice.payments[0].status.Success? && twice.payments[1].status.Success?;
    HistoryStarts(paid, late, []);
    HistoryStarts(linked, cash, [late] + []);
    assert [cash, late] == [cash] + ([late] + []);
    OpeningLinks(invoice, link, [cash, late]);
  }

  /** The linked invoice once its link is found paid: revision 2, announced, credited. */
  lemma LinkedSettles(invoice: Id, link: Id, at: Time, amount: int)
    ensures var settled := Do(LinkedBooks(invoice, link), CheckLink(invoice, link, Report(LinkPaid, at, Some(amount))));
      && settled.bills == map[invoice := Bill(1, Some(2), Some(3), None, Paid, 2)]
      && settled.outbox == [Message(InvoicePaid, invoice, 2, Some(3), invoice, false)]
      && HasReference(settled.ledger, InvoicePayment(invoice))
  {
    var linked := LinkedBooks(invoice, link);
    assert FindByKey(linked.payments, PayOsLink(link)) == Some(0);
    var settled := Do(linked, CheckLink(invoice, link, Report(LinkPaid, at, Some(amount))));
    assert settled.ledger[0].reference == InvoicePayment(invoice);
  }

  /** A deletion for a cancelled or lapsed contract reads its unpaid invoices; the payment comes in; the deletion
      removes the paid invoice and its payment, while the money stays on the ledger. */
  lemma DeletionOvertakesPayment(invoice: Id, link: Id, at: Time, amount: int)
    ensures var read := UnpaidOf(End(NO_BOOKS, Opening(invoice, link)), 3);
      var paid := Opening(invoice, link) + [CheckLink(invoice, link, Report(LinkPaid, at, Some(amount)))];
      var end := End(NO_BOOKS, paid + [LateDelete(read)]);
      && History(NO_BOOKS, paid + [LateDelete(read)])
      && IsPaid(End(NO_BOOKS, paid).bills, invoice)
      && invoice !in end.bills && HasReference(end.ledger, InvoicePayment(invoice))
  {
    var linked := LinkedBooks(invoice, link);
    var settle := CheckLink(invoice, link, Report(LinkPaid, at, Some(amount)));
    var settled := Do(linked, settle);
    LinkedSettles(invoice, link, at, amount);
    OpeningLinks(invoice, link, []);
    assert Opening(invoice, link) + [] == Opening(invoice, link);
    assert UnpaidOf(linked, 3) == {invoice};
    var late := LateDelete({invoice});
    HistoryStarts(linked, settle, []);
    assert [settle] == [settle] + [];
    OpeningLinks(invoice, link, [settle]);
    HistoryStarts(settled, late, []);
    HistoryStarts(linked, settle, [late] + []);
    assert [settle, late] == [settle] + ([late] + []);
    OpeningLinks(invoice, link, [settle, late]);
    assert Opening(invoice, link) + [settle] + [late] == Opening(invoice, link) + [settle, late];
  }

  lemma StaleRepublishing(b: Books, invoice: Id)
    requires b.bills == map[invoice := Bill(1, Some(2), Some(3), None, Paid, 2)]
    requires b.outbox == [Message(InvoicePaid, invoice, 2, Some(3), invoice, false)]
    ensures Possible(Do(b, ActivationFails(invoice)), Reconcile(invoice, 2))
    ensures Do(Do(b, ActivationFails(invoice)), Reconcile(invoice, 2)).outbox
      == b.outbox + [Message(RefundRequested, invoice, 3, Some(3), invoice, false),
                     Message(InvoicePaid, invoice, 3, Some(3), invoice, true)]
  {
    var refund := Message(RefundRequested, invoice, 3, Some(3), invoice, false);
    var refunded := Do(b, ActivationFails(invoice));
    assert refunded.outbox == b.outbox + [refund];
    assert !Published(refunded.outbox, Message(InvoicePaid, invoice, 3, Some(3), invoice, true));
  }

  /** The worker reads a paid invoice at revision 2; its contract cannot be activated and the refund takes it to
      revision 3; the worker then publishes the payment at revision 3 too. */
  lemma RefundOvertakesRepublishing(invoice: Id, link: Id, at: Time, amount: int)
    ensures var paid := Opening(invoice, link) + [CheckLink(invoice, link, Report(LinkPaid, at, Some(amount)))];
      var steps := paid + [ActivationFails(invoice), Reconcile(invoice, 2)];
      var outbox := End(NO_BOOKS, steps).outbox;
      && End(NO_BOOKS, paid).bills == map[invoice := Bill(1, Some(2), Some(3), None, Paid, 2)]
      && History(NO_BOOKS, steps) && |outbox| == 3 && !Increasing(outbox)
      && outbox[1] == Message(RefundRequested, invoice, 3, Some(3), invoice, false)
      && outbox[2] == Message(InvoicePaid, invoice, 3, Some(3), invoice, true)
  {
    var linked := LinkedBooks(invoice, link);
    var settle := CheckLink(invoice, link, Report(LinkPaid, at, Some(amount)));
    var settled := Do(linked, settle);
    LinkedSettles(invoice, link, at, amount);
    HistoryStarts(linked, settle, []);
    assert [settle] == [settle] + [];
    OpeningLinks(invoice, link, [settle]);
    var refund, again := ActivationFails(invoice), Reconcile(invoice, 2);
    StaleRepublishing(settled, invoice);
    HistoryStarts(Do(settled, refund), again, []);
    HistoryStarts(settled, refund, [again] + []);
    HistoryStarts(linked, settle, [refund] + ([again] + []));
    assert [settle, refund, again] == [settle] + ([refund] + ([again] + []));
    OpeningLinks(invoice, link, [settle, refund, again]);
    assert Opening(invoice, link) + [settle] + [refund, again] == Opening(invoice, link) + [settle, refund, again];
    var end := End(NO_BOOKS, Opening(invoice, link) + [settle, refund, again]);
    assert end.outbox[1].revision == end.outbox[2].revision;
  }

  /** A QR request sees the invoice unpaid and asks PayOS, which calls the link open; the payment comes in and is
      settled; the request then makes the payment pending again and wipes its date, on a paid invoice whose
      income is on the ledger. */
  lemma QrRequestUndoesPayment(invoice: Id, link: Id, at: Time, amount: int)
    ensures var paid := Opening(invoice, link) + [CheckLink(invoice, link, Report(LinkPaid, at, Some(amount)))];
      var settled, end := End(NO_BOOKS, paid), End(NO_BOOKS, paid + [LateRevive(invoice, link)]);
      && History(NO_BOOKS, paid + [LateRevive(invoice, link)])
      && settled.payments == [Payment(invoice, Transfer, Some(PayOsLink(link)), Success, Some(at))]
      && end.payments == [Payment(invoice, Transfer, Some(PayOsLink(link)), Pending, None)]
      && IsPaid(end.bills, invoice) && HasReference(end.ledger, InvoicePayment(invoice))
  {
    var linked := LinkedBooks(invoice, link);
    var settle, late := CheckLink(invoice, link, Report(LinkPaid, at, Some(amount))), LateRevive(invoice, link);
    var settled := Do(linked, settle);
    LinkedSettles(invoice, link, at, amount);
    assert FindByKey(linked.payments, PayOsLink(link)) == Some(0);
    assert settled.payments == [Payment(invoice, Transfer, Some(PayOsLink(link)), Success, Some(at))];
    assert FindByKey(settled.payments, PayOsLink(link)) == Some(0);
    HistoryStarts(linked, settle, []);
    assert [settle] == [settle] + [];
    OpeningLinks(invoice, link, [settle]);
    HistoryStarts(settled, late, []);
    HistoryStarts(linked, settle, [late] + []);
    assert [settle, late] == [settle] + ([late] + []);
    OpeningLinks(invoice, link, [settle, late]);
    assert Opening(invoice, link) + [settle] + [late] == Opening(invoice, link) + [settle, late];
  }

  lemma HistoryOfThree(b: Books, s1: Step, s2: Step, s3: Step)
    requires Possible(b, s1) && Possible(Do(b, s1), s2) && Possible(Do(Do(b, s1), s2), s3)
    ensures History(b, [s1, s2, s3]) && End(b, [s1, s2, s3]) == Do(Do(Do(b, s1), s2), s3)
  {
    var b1 := Do(b, s1);
    HistoryStarts(Do(b1, s2), s3, []);
    HistoryStarts(b1, s2, [s3] + []);
    HistoryStarts(b, s1, [s2] + ([s3] + []));
    assert [s1, s2, s3] == [s1] + ([s2] + ([s3] + []));
  }

  lemma CashForNew(invoice: Id, at: Time)
    ensures var paid := PayCash(BillContract(NO_BOOKS, invoice, 1, 2, 3), invoice, 1, None, at);
      paid.payments == [CashPayment(invoice, None, at)] && IsPaid(paid.bills, invoice)
  {
    var billed := BillContract(NO_BOOKS, invoice, 1, 2, 3);
    assert FailAll(billed.payments, invoice, Pending) == [];
  }

  lemma LinkBeside(b: Books, invoice: Id, link: Id, p: Payment)
    requires invoice in b.bills && b.payments == [p] && p.key.None?
    ensures Linked(b, invoice, link).payments == [p, Payment(invoice, Transfer, Some(PayOsLink(link)), Pending, None)]
    ensures p.paidBy.Cash? ==> Possible(b, LateLink(invoice, link))
  {
  }

  /** A QR request sees the invoice without payments and asks PayOS for a link; the invoice is paid in cash; the
      request then adds a pending payment to it. */
  lemma QrRequestLinksPaidInvoice(invoice: Id, link: Id, at: Time)
    ensures var steps := [Prepayment(invoice, 1, 2, 3), CashDesk(invoice, 1, None, at), LateLink(invoice, link)];
      var end := End(NO_BOOKS, steps);
      && History(NO_BOOKS, steps) && IsPaid(end.bills, invoice)
      && end.payments == [CashPayment(invoice, None, at),
                          Payment(invoice, Transfer, Some(PayOsLink(link)), Pending, None)]
  {
    var paid := PayCash(BillContract(NO_BOOKS, invoice, 1, 2, 3), invoice, 1, None, at);
    CashForNew(invoice, at);
    LinkBeside(paid, invoice, link, CashPayment(invoice, None, at));
    HistoryOfThree(NO_BOOKS, Prepayment(invoice, 1, 2, 3), CashDesk(invoice, 1, None, at), LateLink(invoice, link));
  }

  /** Two handlers look for a fine of one case, find none, and make one out each. */
  lemma OneCaseTwoFines(first: Id, second: Id, prefix: Id)
    requires first != second
    ensures var steps := [Fine(first, 1, 2, None, prefix), LateFine(second, 1, 2, None, prefix)];
      History(NO_BOOKS, steps) && !OneFineEach(End(NO_BOOKS, steps).bills)
  {
    var fine, late := Fine(first, 1, 2, None, prefix), LateFine(second, 1, 2, None, prefix);
    var one := Do(NO_BOOKS, fine);
    var both := Do(one, late);
    assert one.outbox == [Message(FineInvoiceCreated, first, 1, None, first, false)];
    assert both.bills[first].fine == both.bills[second].fine;
    HistoryStarts(one, late, []);
    HistoryStarts(NO_BOOKS, fine, [late] + []);
    assert [fine, late] == [fine] + ([late] + []);
  }
}
