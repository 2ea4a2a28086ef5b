/** Where the payout engine's safety stops: the exact edge of each condition the money theorem needs. */
module MoneyLimits {
  import opened Sums
  import opened Ledger
  import opened PayoutResults
  import opened PayoutJobs
  import opened Reservation
  import opened MoneyMachine
  import opened MoneySafety

  lemma ChosenLines(profiles: map<Id, Profile>, groups: seq<Group>, x: Id)
    requires GroupsDistinct(groups) && forall k :: 0 <= k < |groups| ==> PositiveOffers(groups[k])
    ensures Total(Lines(AllocationsFor(Chosen(profiles, groups))), LineFor(x))
      == Total(groups, MaskedTotal(profiles, OfferFor(x)))
  {
    JobLinesAreLines(profiles, groups);
    JobLinesTotal(profiles, groups, x);
  }

  lemma OfferLivesInOneGroup(offers: seq<EligibleInvoice>, groups: seq<Group>, j: nat, k: nat)
    requires DistinctInvoices(offers) && Partitions(groups, offers)
    requires j < |offers| && k < |groups| && groups[k].provider != offers[j].provider
    ensures Total(groups[k].invoices, OfferFor(offers[j].invoice)) == 0
  {
    var kept := groups[k].invoices;
    forall i | 0 <= i < |kept| ensures OfferFor(offers[j].invoice)(kept[i]) == 0 {
      FilterMember(offers, PaidToProvider(groups[k].provider), kept[i]);
      assert kept[i] in offers;
      var m :| 0 <= m < |offers| && offers[m] == kept[i];
      assert m != j;
    }
    TotalZero(kept, OfferFor(offers[j].invoice));
  }

  /** A run takes all of what is left of an invoice, or nothing of it. */
  lemma ScheduledAllOrNothing(w: World, e: Event, x: Id)
    requires Inv(w) && e.Schedule?
    ensures LinesFor(x)(Scheduled(w, e)) == 0
      || LinesFor(x)(Scheduled(w, e)) == Credit(w.ledger, x) - Debit(w.ledger, x)
  {
    var offers := Eligible(w.ledger, w.invoices);
    var groups := GroupByProvider(offers);
    var masked := MaskedTotal(e.profiles, OfferFor(x));
    OffersOfInv(w);
    GroupingPartitions(offers);
    forall k | 0 <= k < |groups| ensures DistinctInvoices(groups[k].invoices) {
      FilterDistinct(offers, PaidToProvider(groups[k].provider));
    }
    forall k, i | 0 <= k < |groups| && 0 <= i < |groups[k].invoices| ensures groups[k].invoices[i].amount > 0 {
      FilterMember(offers, PaidToProvider(groups[k].provider), groups[k].invoices[i]);
    }
    ChosenLines(e.profiles, groups, x);
    if Total(groups, masked) != 0 {
      GroupingConserves(offers, OfferFor(x));
      SingleGroup(e.profiles, offers, groups, x);
      assert Covered(w, x);
      forall q | q in w.pending ensures SoundRequest(q) {
        assert q in w.pending + w.reserved;
      }
      PromisedNonNegative(w.pending, x);
      OffersCovered(w.ledger, w.invoices, w.ledger, x);
    }
  }

  lemma SingleGroup(profiles: map<Id, Profile>, offers: seq<EligibleInvoice>, groups: seq<Group>, x: Id)
    requires DistinctInvoices(offers) && Partitions(groups, offers)
    requires Total(groups, MaskedTotal(profiles, OfferFor(x))) != 0
    ensures Total(groups, MaskedTotal(profiles, OfferFor(x))) == Total(groups, GroupTotal(OfferFor(x)))
    ensures Total(groups, GroupTotal(OfferFor(x))) != 0
  {
    var masked := MaskedTotal(profiles, OfferFor(x));
    if forall j :: 0 <= j < |offers| ==> offers[j].invoice != x {
      forall k | 0 <= k < |groups| ensures masked(groups[k]) == 0 {
        forall i | 0 <= i < |groups[k].invoices| ensures OfferFor(x)(groups[k].invoices[i]) == 0 {
          FilterMember(offers, PaidToProvider(groups[k].provider), groups[k].invoices[i]);
        }
        TotalZero(groups[k].invoices, OfferFor(x));
      }
      TotalZero(groups, masked);
    } else {
      var j :| 0 <= j < |offers| && offers[j].invoice == x;
      var g := GroupIndex(groups, offers[j].provider);
      forall k | 0 <= k < |groups| && k != g
        ensures masked(groups[k]) == 0 && GroupTotal(OfferFor(x))(groups[k]) == 0
      {
        OfferLivesInOneGroup(offers, groups, j, k);
      }
      TotalSingle(groups, masked, g);
      TotalSingle(groups, GroupTotal(OfferFor(x)), g);
    }
  }

  /** A scheduled run keeps every invoice within its income exactly when no job still waiting for its
      reservation claims an invoice the run allocates. */
  lemma ScheduleSafeExactly(w: World, e: Event)
    requires Inv(w) && e.Schedule?
    ensures NoUnreservedClaim(w, Scheduled(w, e)) <==> forall x: Id :: Covered(Apply(w, e), x)
  {
    var q := Scheduled(w, e);
    var after := Apply(w, e);
    ScheduledIsSound(w, e);
    forall p | p in w.pending ensures SoundRequest(p) {
      assert p in w.pending + w.reserved;
    }
    forall x: Id ensures Covered(after, x) <==> LinesFor(x)(q) == 0 || Promised(w, x) == 0 {
      assert Covered(w, x);
      ScheduledAllOrNothing(w, e, x);
      PromisedNonNegative(w.pending, x);
      TotalSnoc(w.pending, q, LinesFor(x));
    }
    forall x: Id ensures LinesFor(x)(q) == Total(Lines(q.allocations), LineFor(x)) {
    }
    if NoUnreservedClaim(w, q) {
      forall x: Id ensures Covered(after, x) {
        assert Total(Lines(q.allocations), LineFor(x)) > 0 ==> Promised(w, x) == 0;
      }
    }
    if forall x: Id :: Covered(after, x) {
      forall x: Id | Total(Lines(q.allocations), LineFor(x)) > 0 ensures Promised(w, x) == 0 {
        assert Covered(after, x);
      }
    }
  }

  /** The gap between queueing a job and reserving it is a real one. Whatever the ledger and the profiles: if a
      run dies after queueing, a second run starts before the worker has reserved the first job, and both are
      then reserved, every invoice both took from is debited past its income. */
  lemma SecondRunBeforeReservationOverdraws(w: World, first: Event, second: Event, x: Id)
    requires Inv(w) && first.Schedule? && second.Schedule?
    requires second.run != first.run && second.batch != first.batch
    requires Unused(w, first.batch, first.run) && Unused(w, second.batch, second.run)
    requires LinesFor(x)(Scheduled(w, first)) > 0 && LinesFor(x)(Scheduled(Apply(w, first), second)) > 0
    ensures var queued := Apply(Apply(w, first), second);
      var q1 := Scheduled(w, first);
      var q2 := Scheduled(Apply(w, first), second);
      var end := Apply(Apply(queued, Reserve(q1)), Reserve(q2));
      && Enabled(queued, Reserve(q1)) && Enabled(Apply(queued, Reserve(q1)), Reserve(q2))
      && Debit(end.ledger, x) > Credit(end.ledger, x)
  {
    var w1 := Apply(w, first);
    var q1 := Scheduled(w, first);
    var q2 := Scheduled(w1, second);
    var queued := Apply(w1, second);
    assert w1.ledger == w.ledger && w1.invoices == w.invoices;
    assert q2 == Scheduled(w, second);
    ScheduledIsSound(w, first);
    ScheduledIsSound(w, second);
    ScheduledAllOrNothing(w, first, x);
    ScheduledAllOrNothing(w, second, x);
    ScheduledFresh(w, first);
    ScheduledFresh(w, second);
    assert queued.pending[|w.pending|] == q1 && queued.pending[|w.pending| + 1] == q2;
    var one := Apply(queued, Reserve(q1));
    FreshReservation(w, q1);
    ReservationDebits(w.ledger, q1, x);
    assert one.ledger == w.ledger + RowsFor(q1);
    FreshAfter(w.ledger, q1, q2);
    FreshLinesMissing(one.ledger, q2);
    assert RowsFor(q2) == Missing(one.ledger, q2, Lines(q2.allocations));
    ReservationDebits(one.ledger, q2, x);
    WithoutKeepsOther(queued.pending, q1, q2);
  }

  lemma {:induction false} WithoutKeepsOther(requests: seq<PayoutRequest>, q: PayoutRequest, p: PayoutRequest)
    requires p in requests && p != q
    ensures p in Without(requests, q)
  {
    if requests[0] == q {
      assert p in requests[1..];
    } else if requests[0] != p {
      WithoutKeepsOther(requests[1..], q, p);
    }
  }

  lemma SettledCredit(w: World, invoice: Id, amount: int)
    requires LedgerShape(w) && invoice in w.invoices && amount >= 0
    ensures Credit(Apply(w, Settle(invoice, amount)).ledger, invoice) == amount
  {
    var after := Apply(w, Settle(invoice, amount));
    SettleLedger(w, invoice, amount);
    if HasReference(w.ledger, InvoicePayment(invoice)) {
      var k :| 0 <= k < |w.ledger| && w.ledger[k].reference == InvoicePayment(invoice);
      assert RowShape(w.invoices, w.ledger[k]) && RowShape(after.invoices, after.ledger[k]);
      CreditIsIncomeRow(after, k);
    } else {
      CreditIsIncomeRow(after, |w.ledger|);
    }
  }

  lemma SettledDebit(w: World, invoice: Id, amount: int)
    requires LedgerShape(w) && invoice in w.invoices
    ensures Debit(Apply(w, Settle(invoice, amount)).ledger, invoice) == Debit(w.ledger, invoice)
  {
    var after := Apply(w, Settle(invoice, amount));
    if HasReference(w.ledger, InvoicePayment(invoice)) {
      forall i | 0 <= i < |w.ledger| ensures DebitOf(invoice)(after.ledger[i]) == DebitOf(invoice)(w.ledger[i]) {
        assert RowShape(w.invoices, w.ledger[i]);
      }
      TotalCongruent(after.ledger, w.ledger, DebitOf(invoice), DebitOf(invoice));
    } else {
      TotalSnoc(w.ledger, IncomeRow(invoice, w.invoices[invoice].provider, amount), DebitOf(invoice));
    }
  }

  /** Recording a new cumulative amount keeps the invoice covered exactly when the amount still covers
      what is debited and promised. Nothing in the upsert itself checks this. */
  lemma SettleSafeExactly(w: World, invoice: Id, amount: int)
    requires Inv(w) && invoice in w.invoices && amount >= 0
    ensures Covered(Apply(w, Settle(invoice, amount)), invoice)
      <==> Debit(w.ledger, invoice) + Promised(w, invoice) <= amount
  {
    SettledCredit(w, invoice, amount);
    SettledDebit(w, invoice, amount);
  }
}
