/** A PayOS link that has been paid is settled once, however many times and by however many routes the news
    arrives. */
module SettlementOnce {
  import opened Sums
  import opened Ledger
  import opened Outbox
  import opened Settlement
  import opened SettlementSafety

  // One arrival of the news that a link is paid. `Repeated` is the bare settling transaction of a handler
  // that still believed the invoice unpaid. A QR request to which PayOS answered before the payment brings no
  // news of it and is not an arrival: what its late write does is `StaleQrRequestUndoes`.
  datatype Arrival =
    | AtWebhook(cached: Option<Id>, at: Time)
    | AtCheck(at: Time)
    | AtQr(customer: Id, saved: bool, newLink: Id, at: Time)
    | Repeated(at: Time)

  function Arrive(b: Books, invoice: Id, link: Id, amount: int, a: Arrival): Books {
    var report := Report(LinkPaid, a.at, Some(amount));
    match a
    case AtWebhook(cached, _) => Webhook(b, link, cached, report)
    case AtCheck(_) => Check(b, invoice, link, report)
    case AtQr(customer, saved, newLink, _) => CreateQr(b, invoice, customer, report, saved, newLink)
    case Repeated(at) => MarkPaid(b, invoice, link, at, Some(amount))
  }

  function ArriveAll(b: Books, invoice: Id, link: Id, amount: int, arrivals: seq<Arrival>): Books {
    Folded((x: Books, a: Arrival) => Arrive(x, invoice, link, amount, a), b, arrivals)
  }

  /** Nothing turns this arrival away while the invoice is unpaid: Redis remembers no other invoice for the
      link, the QR request comes from the invoice's own customer. */
  predicate Reaches(b: Books, invoice: Id, a: Arrival) {
    invoice in b.bills
    && match a
       case AtWebhook(cached, _) => cached.None? || cached.value == invoice
       case AtQr(customer, _, _, _) => b.bills[invoice].customer == Some(customer)
       case _ => true
  }

  /** The invoice is paid, its link's payment has succeeded, and PayOS's figure is on record. */
  predicate Settled(b: Books, invoice: Id, link: Id, amount: int) {
    var found := FindByKey(b.payments, PayOsLink(link));
    && found.Some? && b.payments[found.value].invoice == invoice
    && b.payments[found.value].status.Success? && b.payments[found.value].paidBy.Transfer?
    && b.payments[found.value].paidAt.Some?
    && IsPaid(b.bills, invoice)
    && HasReference(b.ledger, InvoicePayment(invoice))
    && forall r :: 0 <= r < |b.ledger| && IsIncomeOf(b.ledger[r], invoice) ==>
         b.ledger[r].amount == amount && b.ledger[r].status.SUCCEEDED?
  }

  lemma SettledStays(b: Books, invoice: Id, link: Id, amount: int, a: Arrival)
    requires Settled(b, invoice, link, amount)
    ensures Arrive(b, invoice, link, amount, a) == b
  {
    var found := FindByKey(b.payments, PayOsLink(link)).value;
    assert b.payments[found := b.payments[found]] == b.payments;
    assert UpsertIncome(b.ledger, invoice, b.bills[invoice].provider, amount) == b.ledger;
  }

  lemma {:induction false} FoundIs(payments: seq<Payment>, key: Key, k: nat)
    requires k < |payments| && payments[k].key == Some(key)
    requires forall j :: 0 <= j < |payments| && payments[j].key == Some(key) ==> j == k
    ensures FindByKey(payments, key) == Some(k)
  {
    if k < |payments| - 1 {
      FoundIs(payments[..|payments| - 1], key, k);
    }
  }

  lemma OnlyOneHasKey(bills: map<Id, Bill>, payments: seq<Payment>, k: nat)
    requires PaymentsFine(bills, payments) && k < |payments| && payments[k].key.Some?
    ensures forall j :: 0 <= j < |payments| && payments[j].key == payments[k].key ==> j == k
  {
    assert forall x, y :: 0 <= x < y < |payments| ==> Apart(payments[x], payments[y]);
  }

  lemma OnlyOneTransfer(bills: map<Id, Bill>, payments: seq<Payment>, j: nat, k: nat)
    requires PaymentsFine(bills, payments) && j <= k < |payments|
    requires payments[j].invoice == payments[k].invoice && payments[j].paidBy == payments[k].paidBy
    ensures j == k
  {
    assert forall x, y :: 0 <= x < y < |payments| ==> Apart(payments[x], payments[y]);
  }

  lemma FirstSettles(b: Books, invoice: Id, link: Id, at: Time, amount: int)
    requires Sound(b) && Unsettled(b, invoice, link)
    ensures Settled(MarkPaid(b, invoice, link, at, Some(amount)), invoice, link, amount)
  {
    var after := MarkPaid(b, invoice, link, at, Some(amount));
    var found := FindByKey(b.payments, PayOsLink(link)).value;
    MarkPaidKeeps(b, invoice, link, at, Some(amount));
    OnlyOneHasKey(after.bills, after.payments, found);
    FoundIs(after.payments, PayOsLink(link), found);
    assert !HasReference(b.ledger, InvoicePayment(invoice));
    assert after.ledger[|b.ledger|].reference == InvoicePayment(invoice);
  }

  /** An unpaid invoice has no payment but its link's, so a QR request finds it. */
  lemma NewestIsLink(b: Books, invoice: Id, link: Id)
    requires Sound(b) && Unsettled(b, invoice, link)
    ensures Newest(b.payments, invoice) == FindByKey(b.payments, PayOsLink(link))
  {
    var found := FindByKey(b.payments, PayOsLink(link)).value;
    var newest := Newest(b.payments, invoice).value;
    assert PaymentFine(b.bills, b.payments[found]) && PaymentFine(b.bills, b.payments[newest]);
    OnlyOneTransfer(b.bills, b.payments, found, newest);
  }

  lemma ReachingIsSettling(b: Books, invoice: Id, link: Id, amount: int, a: Arrival)
    requires Sound(b) && Unsettled(b, invoice, link) && Reaches(b, invoice, a)
    ensures var marked := MarkPaid(b, invoice, link, a.at, Some(amount));
      var after := Arrive(b, invoice, link, amount, a);
      after == marked.(notified := after.notified)
      && (after.notified == b.notified || after.notified == b.notified + [invoice])
  {
    NewestIsLink(b, invoice, link);
  }

  lemma ReachingSettles(b: Books, invoice: Id, link: Id, amount: int, a: Arrival)
    requires Sound(b) && Unsettled(b, invoice, link) && Reaches(b, invoice, a)
    ensures Settled(Arrive(b, invoice, link, amount, a), invoice, link, amount)
  {
    FirstSettles(b, invoice, link, a.at, amount);
    ReachingIsSettling(b, invoice, link, amount, a);
  }

  lemma TurnedAway(b: Books, invoice: Id, link: Id, amount: int, a: Arrival)
    requires Sound(b) && Unsettled(b, invoice, link) && !Reaches(b, invoice, a)
    ensures Arrive(b, invoice, link, amount, a) == b
  {
  }

  /** Any mix of webhooks, polls, worker passes, QR requests and stale transactions leaves the books as the
      first of them that gets through leaves them alone: same invoice, payments, ledger, messages, and the
      customer told at most once. If none gets through nothing changes. */
  lemma SettledByTheFirst(b: Books, invoice: Id, link: Id, amount: int, arrivals: seq<Arrival>)
    returns (first: nat)
    requires Sound(b) && Unsettled(b, invoice, link)
    ensures first <= |arrivals| && forall k :: 0 <= k < first ==> !Reaches(b, invoice, arrivals[k])
    ensures first == |arrivals| ==> ArriveAll(b, invoice, link, amount, arrivals) == b
    ensures first < |arrivals| ==> Reaches(b, invoice, arrivals[first])
    ensures first < |arrivals| ==>
      ArriveAll(b, invoice, link, amount, arrivals) == Arrive(b, invoice, link, amount, arrivals[first])
  {
    var step := (x: Books, a: Arrival) => Arrive(x, invoice, link, amount, a);
    var counts := (a: Arrival) => Reaches(b, invoice, a);
    forall a: Arrival | !counts(a) ensures step(b, a) == b {
      TurnedAway(b, invoice, link, amount, a);
    }
    forall f: Arrival, a: Arrival | counts(f) ensures step(step(b, f), a) == step(b, f) {
      ReachingSettles(b, invoice, link, amount, f);
      SettledStays(step(b, f), invoice, link, amount, a);
    }
    first := FirstDecides(step, b, arrivals, counts);
  }

  /** So the order of arrival does not matter: two sets of arrivals that both get through, at the payment time
      PayOS gives, end in the same books, but for whether the notification went out. */
  lemma OrderDoesNotMatter(b: Books, invoice: Id, link: Id, amount: int, at: Time,
                           one: seq<Arrival>, other: seq<Arrival>)
    requires Sound(b) && Unsettled(b, invoice, link)
    requires exists k :: 0 <= k < |one| && Reaches(b, invoice, one[k])
    requires exists k :: 0 <= k < |other| && Reaches(b, invoice, other[k])
    requires (forall k :: 0 <= k < |one| ==> one[k].at == at) && forall k :: 0 <= k < |other| ==> other[k].at == at
    ensures var x := ArriveAll(b, invoice, link, amount, one);
      var y := ArriveAll(b, invoice, link, amount, other);
      && x.(notified := []) == y.(notified := [])
      && (x.notified == b.notified || x.notified == b.notified + [invoice])
      && (y.notified == b.notified || y.notified == b.notified + [invoice])
  {
    var i := SettledByTheFirst(b, invoice, link, amount, one);
    var j := SettledByTheFirst(b, invoice, link, amount, other);
    ReachingIsSettling(b, invoice, link, amount, one[i]);
    ReachingIsSettling(b, invoice, link, amount, other[j]);
  }

  /** Once an invoice is paid, in cash for instance, no handler that looks at it first acts on its link any
      more: money that still arrives there is neither credited nor counted as a payment. */
  lemma {:induction false} NewsOfAPaidInvoiceIsIgnored(b: Books, invoice: Id, link: Id, amount: int,
                                                       arrivals: seq<Arrival>)
    requires FindByKey(b.payments, PayOsLink(link)).Some?
    requires b.payments[FindByKey(b.payments, PayOsLink(link)).value].invoice == invoice
    requires IsPaid(b.bills, invoice) && forall k :: 0 <= k < |arrivals| ==> !arrivals[k].Repeated?
    ensures ArriveAll(b, invoice, link, amount, arrivals) == b
  {
    if arrivals != [] {
      var n := |arrivals| - 1;
      NewsOfAPaidInvoiceIsIgnored(b, invoice, link, amount, arrivals[..n]);
      assert ArriveAll(b, invoice, link, amount, arrivals)
        == Arrive(ArriveAll(b, invoice, link, amount, arrivals[..n]), invoice, link, amount, arrivals[n]);
    }
  }

  lemma {:induction false} SameKeysSameFind(before: seq<Payment>, after: seq<Payment>, key: Key)
    requires |before| == |after| && forall k :: 0 <= k < |before| ==> after[k].key == before[k].key
    ensures FindByKey(after, key) == FindByKey(before, key)
  {
    if before != [] {
      SameKeysSameFind(before[..|before| - 1], after[..|after| - 1], key);
    }
  }

  /** The invoice is paid but its link's payment is not settled; settling it again would put that right. */
  ghost predicate Undone(b: Books, invoice: Id, link: Id, amount: int) {
    && HasLink(b, invoice, link) && IsPaid(b.bills, invoice) && !Settled(b, invoice, link, amount)
    && forall at: Time :: Settled(MarkPaid(b, invoice, link, at, Some(amount)), invoice, link, amount)
  }

  lemma ReviveUndoes(b: Books, invoice: Id, link: Id, amount: int)
    requires Settled(b, invoice, link, amount)
    ensures Undone(ReviveLink(b, invoice, link), invoice, link, amount)
  {
    var undone := ReviveLink(b, invoice, link);
    SameKeysSameFind(b.payments, undone.payments, PayOsLink(link));
    forall at: Time ensures Settled(MarkPaid(undone, invoice, link, at, Some(amount)), invoice, link, amount) {
      var again := MarkPaid(undone, invoice, link, at, Some(amount));
      SameKeysSameFind(undone.payments, again.payments, PayOsLink(link));
      assert UpsertIncome(b.ledger, invoice, b.bills[invoice].provider, amount) == b.ledger;
    }
  }

  lemma UndoneArrival(b: Books, invoice: Id, link: Id, amount: int, a: Arrival)
    requires Undone(b, invoice, link, amount)
    ensures var after := Arrive(b, invoice, link, amount, a);
      if a.Repeated? then Settled(after, invoice, link, amount) else after == b
  {
  }

  predicate SettlesAgain(arrivals: seq<Arrival>) {
    exists k :: 0 <= k < |arrivals| && arrivals[k].Repeated?
  }

  lemma SettlesAgainSnoc(before: seq<Arrival>, a: Arrival)
    ensures SettlesAgain(before + [a]) <==> SettlesAgain(before) || a.Repeated?
  {
    var all := before + [a];
    assert all[|before|] == a;
    if SettlesAgain(before) {
      var k :| 0 <= k < |before| && before[k].Repeated?;
      assert all[k].Repeated?;
    }
  }

  lemma {:induction false} StaysUndone(b: Books, invoice: Id, link: Id, amount: int, arrivals: seq<Arrival>)
    requires Undone(b, invoice, link, amount)
    ensures var after := ArriveAll(b, invoice, link, amount, arrivals);
      if SettlesAgain(arrivals) then Settled(after, invoice, link, amount) else after == b
  {
    if arrivals != [] {
      var n := |arrivals| - 1;
      StaysUndone(b, invoice, link, amount, arrivals[..n]);
      assert arrivals == arrivals[..n] + [arrivals[n]];
      SettlesAgainSnoc(arrivals[..n], arrivals[n]);
      var before := ArriveAll(b, invoice, link, amount, arrivals[..n]);
      if SettlesAgain(arrivals[..n]) {
        SettledStays(before, invoice, link, amount, arrivals[n]);
      } else {
        UndoneArrival(b, invoice, link, amount, arrivals[n]);
      }
    }
  }

  /** A QR request that asked PayOS before the payment and writes after it undoes the settled payment. The invoice
      being paid, no handler that looks at it puts that right: the books are settled again exactly when another
      bare settling transaction arrives, and else stay as they are. */
  lemma StaleQrRequestUndoes(b: Books, invoice: Id, link: Id, amount: int, arrivals: seq<Arrival>)
    requires Settled(b, invoice, link, amount)
    ensures var undone := ReviveLink(b, invoice, link);
      var after := ArriveAll(undone, invoice, link, amount, arrivals);
      && (Settled(after, invoice, link, amount) <==> SettlesAgain(arrivals))
      && (!SettlesAgain(arrivals) ==> after == undone)
  {
    ReviveUndoes(b, invoice, link, amount);
    StaysUndone(ReviveLink(b, invoice, link), invoice, link, amount, arrivals);
  }

  /** A cash payment retried under its idempotency key is taken once and answered the same. */
  lemma RetriedCashIsOnePayment(b: Books, invoice: Id, provider: Id, key: Id, now: Time, later: Time)
    requires AnswerCash(b, invoice, provider, Some(key), now).Receipt?
    ensures var after := PayCash(b, invoice, provider, Some(key), now);
      && PayCash(after, invoice, provider, Some(key), later) == after
      && AnswerCash(after, invoice, provider, Some(key), later) == AnswerCash(b, invoice, provider, Some(key), now)
  {
    var after := PayCash(b, invoice, provider, Some(key), now);
    if FindByKey(b.payments, CashKey(key)).None? {
      assert after.payments[|after.payments| - 1] == CashPayment(invoice, Some(key), now);
    }
  }
}
