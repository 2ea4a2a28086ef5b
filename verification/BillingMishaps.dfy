/** Where refunds and payouts meet, or rather do not: neither looks at the other. */
module BillingMishaps {
  import opened Sums
  import opened Ledger
  import opened PayoutJobs
  import opened Reservation
  import opened Settlement
  import opened SettlementSafety
  import opened SettlementRaces
  import opened WholeBilling
  import opened ActivationSaga
  import MM = MoneyMachine
  import opened MoneyMishaps

  /** Requesting a refund changes nothing the payout engine sees: the invoice is offered as before, in full. */
  lemma RefundLeavesOffers(s: System, invoice: Id)
    ensures PayoutView(Next(s, Billing(ActivationFails(invoice)))) == PayoutView(s)
    ensures var t := Next(s, Billing(ActivationFails(invoice)));
      Eligible(t.books.ledger, InvoicesOf(t.books.bills)) == Eligible(s.books.ledger, InvoicesOf(s.books.bills))
  {
    var t := Next(s, Billing(ActivationFails(invoice)));
    assert InvoicesOf(t.books.bills) == InvoicesOf(s.books.bills);
  }

  lemma CoursesJoin(states: seq<System>, moves: seq<Move>, later: seq<System>, more: seq<Move>)
    requires Course(states, moves) && Course(later, more) && states[|moves|] == later[0]
    ensures Course(states + later[1..], moves + more)
    ensures (states + later[1..])[|moves| + |more|] == later[|more|]
  {
    var all, whole := states + later[1..], moves + more;
    assert forall j :: 0 <= j <= |more| ==> all[|moves| + j] == later[j];
    forall i {:trigger whole[i]} | 0 <= i < |whole|
      ensures Permitted(all[i], whole[i]) && all[i + 1] == Next(all[i], whole[i])
    {
      if i < |moves| {
        assert whole[i] == moves[i];
      } else {
        assert whole[i] == more[i - |moves|];
      }
    }
  }

  // ---- The invoice is paid and its refund requested ------------------------------

  function BillingMoves(invoice: Id, link: Id, at: Time, amount: int): seq<Move> {
    [Billing(Prepayment(invoice, 1, 2, 3)),
     Billing(QrRequest(invoice, 2, Report(LinkOpen, 0, None), true, link)),
     Billing(CheckLink(invoice, link, Report(LinkPaid, at, Some(amount)))),
     Billing(ActivationFails(invoice))]
  }

  function Unstarted(b: Books): System {
    System(b, NEW_SYSTEM.engine)
  }

  lemma SettledBooks(invoice: Id, link: Id, at: Time, amount: int)
    requires amount >= 0
    ensures var linked := LinkedBooks(invoice, link);
      var settle := CheckLink(invoice, link, Report(LinkPaid, at, Some(amount)));
      && Do(linked, settle).ledger == [IncomeRow(invoice, 1, amount)]
      && Permitted(Unstarted(linked), Billing(settle))
  {
    var linked := LinkedBooks(invoice, link);
    var settle := CheckLink(invoice, link, Report(LinkPaid, at, Some(amount)));
    assert FindByKey(linked.payments, PayOsLink(link)) == Some(0);
    assert Do(linked, settle).ledger == [] + [IncomeRow(invoice, 1, amount)];
    forall x: Id ensures Credit(linked.ledger, x) <= Credit(Do(linked, settle).ledger, x) {
      TotalSnoc([], IncomeRow(invoice, 1, amount), CreditOf(x));
    }
  }

  lemma RefundOf(settled: Books, invoice: Id)
    requires settled.bills == map[invoice := Bill(1, Some(2), Some(3), None, Paid, 2)]
    ensures var refunded := Do(settled, ActivationFails(invoice));
      && refunded.ledger == settled.ledger
      && InvoicesOf(refunded.bills) == map[invoice := Invoice(1, true)]
      && Refunded(refunded.outbox, invoice)
  {
    RefundIsSent(settled, invoice);
  }

  lemma CourseOfTwo(s: System, m1: Move, m2: Move)
    requires Permitted(s, m1) && Permitted(Next(s, m1), m2)
    ensures Course([s, Next(s, m1), Next(Next(s, m1), m2)], [m1, m2])
  {
  }

  /** Steps that leave the ledger alone are permitted. */
  lemma QuietIsPermitted(b: Books, step: Step)
    requires Possible(b, step) && Spares(b, step) && Do(b, step).ledger == b.ledger
    ensures Permitted(Unstarted(b), Billing(step)) && Next(Unstarted(b), Billing(step)) == Unstarted(Do(b, step))
  {
  }

  lemma OpeningCourse(invoice: Id, link: Id) returns (states: seq<System>)
    ensures Course(states, BillingMoves(invoice, link, 0, 0)[..2])
    ensures states[0] == NEW_SYSTEM && states[2] == Unstarted(LinkedBooks(invoice, link))
  {
    var bill := Prepayment(invoice, 1, 2, 3);
    var qr := QrRequest(invoice, 2, Report(LinkOpen, 0, None), true, link);
    var billed := Do(NO_BOOKS, bill);
    assert Do(billed, qr) == LinkedBooks(invoice, link);
    QuietIsPermitted(NO_BOOKS, bill);
    QuietIsPermitted(billed, qr);
    CourseOfTwo(NEW_SYSTEM, Billing(bill), Billing(qr));
    states := [NEW_SYSTEM, Unstarted(billed), Unstarted(LinkedBooks(invoice, link))];
    assert BillingMoves(invoice, link, 0, 0)[..2] == [Billing(bill), Billing(qr)];
  }

  lemma PaidAndRefunded(linked: Books, settle: Step, invoice: Id) returns (states: seq<System>)
    requires Permitted(Unstarted(linked), Billing(settle))
    requires Do(linked, settle).bills == map[invoice := Bill(1, Some(2), Some(3), None, Paid, 2)]
    ensures Course(states, [Billing(settle), Billing(ActivationFails(invoice))]) && states[0] == Unstarted(linked)
    ensures states[2].engine == NEW_SYSTEM.engine && states[2].books.ledger == Do(linked, settle).ledger
    ensures InvoicesOf(states[2].books.bills) == map[invoice := Invoice(1, true)]
    ensures Refunded(states[2].books.outbox, invoice)
  {
    var settled := Do(linked, settle);
    RefundOf(settled, invoice);
    QuietIsPermitted(settled, ActivationFails(invoice));
    CourseOfTwo(Unstarted(linked), Billing(settle), Billing(ActivationFails(invoice)));
    states := [Unstarted(linked), Unstarted(settled), Unstarted(Do(settled, ActivationFails(invoice)))];
  }

  lemma BillingCourse(invoice: Id, link: Id, at: Time, amount: int) returns (states: seq<System>)
    requires amount >= 0
    ensures Course(states, BillingMoves(invoice, link, at, amount)) && states[0] == NEW_SYSTEM
    ensures states[4].engine == NEW_SYSTEM.engine && Refunded(states[4].books.outbox, invoice)
    ensures states[4].books.ledger == [IncomeRow(invoice, 1, amount)]
    ensures InvoicesOf(states[4].books.bills) == map[invoice := Invoice(1, true)]
  {
    var linked := LinkedBooks(invoice, link);
    var settle := CheckLink(invoice, link, Report(LinkPaid, at, Some(amount)));
    SettledBooks(invoice, link, at, amount);
    LinkedSettles(invoice, link, at, amount);
    var before := OpeningCourse(invoice, link);
    var later := PaidAndRefunded(linked, settle, invoice);
    var first, second := BillingMoves(invoice, link, 0, 0)[..2], [Billing(settle), Billing(ActivationFails(invoice))];
    CoursesJoin(before, first, later, second);
    states := before + later[1..];
    assert first + second == BillingMoves(invoice, link, at, amount);
  }

  // ---- The next run pays it out --------------------------------------------------

  function PayoutMoves(e: MM.Event, q: PayoutRequest, provider: Id): seq<Move> {
    [Payout(e), Payout(MM.Reserve(q)), Payout(MM.Create(q)), Payout(MM.PayOsTransfers(q, provider))]
  }

  lemma PayoutCourse(s: System, e: MM.Event, q: PayoutRequest, provider: Id) returns (states: seq<System>)
    requires s.engine == NEW_SYSTEM.engine && e.Schedule? && q == MM.Scheduled(PayoutView(s), e)
    ensures Course(states, PayoutMoves(e, q, provider)) && states[0] == s
    ensures states[4].books == s.books.(ledger := Reserved(s.books.ledger, q))
    ensures states[4].engine.reserved == [q] && states[4].engine.transferred == {MM.Transfer(q.run, provider)}
  {
    var moves := PayoutMoves(e, q, provider);
    var s1 := Next(s, moves[0]);
    assert s1 == System(s.books, s.engine.(pending := [q]));
    assert MM.NoUnreservedClaim(PayoutView(s), q);
    var s2 := Next(s1, moves[1]);
    assert MM.Without([q], q) == [];
    assert s2.engine == Engine([], [q], {}, {}, {});
    var s3 := Next(s2, moves[2]);
    assert s3.engine == Engine([], [q], {q.idempotencyKey}, {}, {});
    states := [s, s1, s2, s3, Next(s3, moves[3])];
  }

  lemma LonePaidOut(w: MM.World, profile: Profile, invoice: Id, amount: int, q: PayoutRequest)
    requires q == LoneRequest(profile, invoice, 1, amount, 1)
    requires w.reserved == [q] && w.transferred == {MM.Transfer(1, 1)}
    ensures MM.PaidOut(w, invoice) == amount
  {
    LoneLines(profile, invoice, 1, amount, 1);
    var lines := Lines(q.allocations);
    TotalSingle(lines, MM.PaidLine(1, w.transferred, invoice), 0);
    TotalSingle(w.reserved, MM.PaidBy(w.transferred, invoice), 0);
  }

  lemma NextRunPays(s: System, profile: Profile, invoice: Id, amount: int, e: MM.Event, q: PayoutRequest)
    returns (states: seq<System>)
    requires CanBePaid(profile) && 0 < amount <= MAX_SAFE_INTEGER && s.engine == NEW_SYSTEM.engine
    requires s.books.ledger == [IncomeRow(invoice, 1, amount)]
    requires InvoicesOf(s.books.bills) == map[invoice := Invoice(1, true)]
    requires e == MM.Schedule(map[1 := profile], 1, 1) && q == LoneRequest(profile, invoice, 1, amount, 1)
    ensures Course(states, PayoutMoves(e, q, 1)) && states[0] == s && states[4].books.outbox == s.books.outbox
    ensures MM.PaidOut(PayoutView(states[4]), invoice) == amount
  {
    assert s.books.ledger + [] == s.books.ledger;
    LoneScheduled(profile, PayoutView(s), invoice, 1, amount, [], 1);
    states := PayoutCourse(s, e, q, 1);
    LonePaidOut(PayoutView(states[4]), profile, invoice, amount, q);
  }

  /** A paid invoice whose contract could not be activated has its refund requested, and the next scheduled run
      pays its whole amount out to the provider: a permitted course from the beginning to a state in which the
      refund stands in the outbox and the money has gone. */
  lemma RefundedAndPaidOut(profile: Profile, invoice: Id, link: Id, at: Time, amount: int)
    returns (states: seq<System>)
    requires CanBePaid(profile) && 0 < amount <= MAX_SAFE_INTEGER
    ensures Course(states, BillingMoves(invoice, link, at, amount)
      + PayoutMoves(MM.Schedule(map[1 := profile], 1, 1), LoneRequest(profile, invoice, 1, amount, 1), 1))
    ensures states[0] == NEW_SYSTEM
    ensures Refunded(states[8].books.outbox, invoice) && MM.PaidOut(PayoutView(states[8]), invoice) == amount
  {
    var e, q := MM.Schedule(map[1 := profile], 1, 1), LoneRequest(profile, invoice, 1, amount, 1);
    var before := BillingCourse(invoice, link, at, amount);
    var later := NextRunPays(before[4], profile, invoice, amount, e, q);
    CoursesJoin(before, BillingMoves(invoice, link, at, amount), later, PayoutMoves(e, q, 1));
    states := before + later[1..];
    assert states[4 + 4] == later[4];
  }
}
