/** Every run of the payout machine: what is paid out never exceeds what came in. */
module MoneySafety {
  import opened Sums
  import opened Ledger
  import opened PayoutResults
  import opened PayoutJobs
  import opened Reservation
  import opened MoneyMachine

  // ---- Each step keeps the invariant ----------------------------------------

  lemma {:induction false} PromisedNonNegative(requests: seq<PayoutRequest>, invoice: Id)
    requires forall q :: q in requests ==> SoundRequest(q)
    ensures Total(requests, LinesFor(invoice)) >= 0
  {
    forall i | 0 <= i < |requests| ensures LinesFor(invoice)(requests[i]) >= 0 {
      assert requests[i] in requests;
      TotalNonNegative(Lines(requests[i].allocations), LineFor(invoice));
    }
    TotalNonNegative(requests, LinesFor(invoice));
  }

  /** With one income row per invoice, what was credited is the amount on that row. */
  lemma CreditIsIncomeRow(w: World, k: nat)
    requires LedgerShape(w) && k < |w.ledger| && w.ledger[k].kind.INCOME?
    ensures Credit(w.ledger, w.ledger[k].invoice.value) == w.ledger[k].amount
  {
    var invoice := w.ledger[k].invoice.value;
    forall i | 0 <= i < |w.ledger| && i != k ensures CreditOf(invoice)(w.ledger[i]) == 0 {
      assert RowShape(w.invoices, w.ledger[i]);
      assert w.ledger[i].reference != w.ledger[k].reference;
    }
    TotalSingle(w.ledger, CreditOf(invoice), k);
  }

  lemma SettleCredits(w: World, invoice: Id, amount: int)
    requires LedgerShape(w) && invoice in w.invoices && amount >= Credit(w.ledger, invoice)
    ensures forall x: Id :: Credit(w.ledger, x) <= Credit(Apply(w, Settle(invoice, amount)).ledger, x)
    ensures forall x: Id :: Debit(w.ledger, x) == Debit(Apply(w, Settle(invoice, amount)).ledger, x)
  {
    var after := Apply(w, Settle(invoice, amount)).ledger;
    if HasReference(w.ledger, InvoicePayment(invoice)) {
      var k :| 0 <= k < |w.ledger| && w.ledger[k].reference == InvoicePayment(invoice);
      assert RowShape(w.invoices, w.ledger[k]);
      CreditIsIncomeRow(w, k);
      forall x: Id ensures Credit(w.ledger, x) <= Credit(after, x) && Debit(w.ledger, x) == Debit(after, x) {
        forall i | 0 <= i < |after|
          ensures CreditOf(x)(w.ledger[i]) <= CreditOf(x)(after[i])
          ensures DebitOf(x)(w.ledger[i]) == DebitOf(x)(after[i])
        {
          assert RowShape(w.invoices, w.ledger[i]);
          assert i != k ==> w.ledger[i].reference != w.ledger[k].reference;
        }
        TotalMonotone(w.ledger, after, CreditOf(x), CreditOf(x));
        TotalCongruent(w.ledger, after, DebitOf(x), DebitOf(x));
      }
    } else {
      var row := IncomeRow(invoice, w.invoices[invoice].provider, amount);
      forall x: Id ensures Credit(w.ledger, x) <= Credit(after, x) && Debit(w.ledger, x) == Debit(after, x) {
        forall i | 0 <= i < |w.ledger| ensures CreditOf(x)(w.ledger[i]) >= 0 {
          assert RowShape(w.invoices, w.ledger[i]);
        }
        TotalNonNegative(w.ledger, CreditOf(x));
        TotalSnoc(w.ledger, row, CreditOf(x));
        TotalSnoc(w.ledger, row, DebitOf(x));
      }
    }
  }

  lemma SettleRow(w: World, invoice: Id, amount: int, i: nat)
    requires LedgerShape(w) && invoice in w.invoices && amount >= 0 && i < |w.ledger|
    ensures var after := Apply(w, Settle(invoice, amount));
      && RowShape(after.invoices, after.ledger[i])
      && after.ledger[i].kind == w.ledger[i].kind && after.ledger[i].reference == w.ledger[i].reference
      && (w.ledger[i].kind.PAYOUT? ==> after.ledger[i] == w.ledger[i])
  {
    assert RowShape(w.invoices, w.ledger[i]);
  }

  lemma SettleLedger(w: World, invoice: Id, amount: int)
    requires LedgerShape(w) && invoice in w.invoices && amount >= 0
    ensures LedgerShape(Apply(w, Settle(invoice, amount)))
  {
    var after := Apply(w, Settle(invoice, amount));
    forall i | 0 <= i < |w.ledger|
      ensures RowShape(after.invoices, after.ledger[i]) && after.ledger[i].reference == w.ledger[i].reference
    {
      SettleRow(w, invoice, amount, i);
    }
  }

  lemma SettleSkeleton(w: World, invoice: Id, amount: int)
    requires LedgerShape(w) && invoice in w.invoices && amount >= 0
    ensures Skeleton(Apply(w, Settle(invoice, amount)).ledger) == Skeleton(w.ledger)
  {
    var after := Apply(w, Settle(invoice, amount));
    forall i | 0 <= i < |w.ledger|
      ensures after.ledger[i].kind == w.ledger[i].kind
      ensures w.ledger[i].kind.PAYOUT? ==> after.ledger[i] == w.ledger[i]
    {
      SettleRow(w, invoice, amount, i);
    }
    if HasReference(w.ledger, InvoicePayment(invoice)) {
      SkeletonPointwise(after.ledger, w.ledger);
    } else {
      SkeletonAppend(w.ledger, [IncomeRow(invoice, w.invoices[invoice].provider, amount)]);
    }
  }

  lemma SettleShape(w: World, invoice: Id, amount: int)
    requires LedgerShape(w) && invoice in w.invoices && amount >= 0
    ensures LedgerShape(Apply(w, Settle(invoice, amount)))
    ensures Skeleton(Apply(w, Settle(invoice, amount)).ledger) == Skeleton(w.ledger)
  {
    SettleLedger(w, invoice, amount);
    SettleSkeleton(w, invoice, amount);
  }

  lemma CreditNonNegative(w: World, invoice: Id)
    requires LedgerShape(w)
    ensures Credit(w.ledger, invoice) >= 0
  {
    forall i | 0 <= i < |w.ledger| ensures CreditOf(invoice)(w.ledger[i]) >= 0 {
      assert RowShape(w.invoices, w.ledger[i]);
    }
    TotalNonNegative(w.ledger, CreditOf(invoice));
  }

  lemma SettleKeepsJobs(w: World, invoice: Id, amount: int)
    requires JobsShape(w)
    ensures JobsShape(Apply(w, Settle(invoice, amount)))
  {
  }

  lemma SettleKeepsDead(w: World, invoice: Id, amount: int)
    requires LedgerShape(w) && DeadIsRefused(w) && invoice in w.invoices && amount >= 0
    ensures DeadIsRefused(Apply(w, Settle(invoice, amount)))
  {
    var after := Apply(w, Settle(invoice, amount));
    forall i | 0 <= i < |after.ledger| && IsDeadDebit(after.ledger[i])
      ensures Transfer(after.ledger[i].reference.run, after.ledger[i].provider) in after.refused
    {
      if i < |w.ledger| {
        SettleRow(w, invoice, amount, i);
      }
    }
  }

  lemma SettleCovers(w: World, invoice: Id, amount: int)
    requires Inv(w) && Enabled(w, Settle(invoice, amount))
    ensures forall x: Id :: Covered(Apply(w, Settle(invoice, amount)), x)
  {
    SettleCredits(w, invoice, amount);
    forall x: Id ensures Covered(Apply(w, Settle(invoice, amount)), x) {
      assert Covered(w, x);
    }
  }

  lemma OffersOfInv(w: World)
    requires LedgerShape(w)
    ensures OneCreditPerInvoice(w.ledger)
    ensures DistinctInvoices(Eligible(w.ledger, w.invoices))
    ensures forall e :: e in Eligible(w.ledger, w.invoices) ==> e.amount > 0
  {
    forall i, j | 0 <= i < j < |w.ledger| && IsCredit(w.ledger[i]) && IsCredit(w.ledger[j])
      ensures w.ledger[i].invoice != w.ledger[j].invoice
    {
      assert RowShape(w.invoices, w.ledger[i]) && RowShape(w.invoices, w.ledger[j]);
    }
    OffersAreDistinct(w.ledger, w.invoices, w.ledger);
    OffersComeFromRows(w.ledger, w.invoices, w.ledger);
  }

  lemma ScheduledIsSound(w: World, e: Event)
    requires Inv(w) && e.Schedule?
    ensures SoundRequest(Scheduled(w, e))
    ensures forall x: Id :: 0 <= LinesFor(x)(Scheduled(w, e))
    ensures forall x: Id | LinesFor(x)(Scheduled(w, e)) > 0 ::
      LinesFor(x)(Scheduled(w, e)) <= Credit(w.ledger, x) - Debit(w.ledger, x)
  {
    var offers := Eligible(w.ledger, w.invoices);
    var groups := GroupByProvider(offers);
    OffersOfInv(w);
    BuiltRequestAccepted(e.profiles, offers, e.batch, e.run);
    DistinctOffersDistinctGroups(e.profiles, offers);
    GroupingPartitions(offers);
    forall k | 0 <= k < |groups| ensures DistinctInvoices(groups[k].invoices) {
      FilterDistinct(offers, PaidToProvider(groups[k].provider));
    }
    forall k, i | 0 <= k < |groups| && 0 <= i < |groups[k].invoices| ensures groups[k].invoices[i].amount > 0 {
      FilterMember(offers, PaidToProvider(groups[k].provider), groups[k].invoices[i]);
    }
    forall q | q in w.pending ensures SoundRequest(q) {
      assert q in w.pending + w.reserved;
    }
    forall x: Id ensures 0 <= LinesFor(x)(Scheduled(w, e))
      && (LinesFor(x)(Scheduled(w, e)) > 0 ==> LinesFor(x)(Scheduled(w, e)) <= Credit(w.ledger, x) - Debit(w.ledger, x))
    {
      BuiltLinesWithinGroups(e.profiles, groups, x);
      GroupingConserves(offers, OfferFor(x));
      assert Covered(w, x);
      PromisedNonNegative(w.pending, x);
      OffersCovered(w.ledger, w.invoices, w.ledger, x);
    }
    BuiltLinesWithinGroups(e.profiles, groups, 0);
  }

  lemma ScheduledFresh(w: World, e: Event)
    requires Inv(w) && e.Schedule? && Unused(w, e.batch, e.run)
    ensures FreshRun(w.ledger, Scheduled(w, e))
  {
    forall i | 0 <= i < |w.ledger|
      ensures w.ledger[i].reference.PayoutShare? ==> w.ledger[i].reference.run != e.run
      ensures w.ledger[i].batch != Some(e.batch)
    {
      assert RowShape(w.invoices, w.ledger[i]);
      if w.ledger[i].kind.PAYOUT? {
        PayoutRowHasRequest(w, i);
        var r :| r in w.reserved && w.ledger[i].(status := PENDING) in RowsFor(r);
        assert r in w.pending + w.reserved;
      }
    }
  }

  lemma InsertKeepsRuns(pending: seq<PayoutRequest>, reserved: seq<PayoutRequest>, q: PayoutRequest)
    requires DistinctRuns(pending + reserved)
    requires forall p :: p in pending + reserved ==> p.run != q.run && p.batch != q.batch
    ensures DistinctRuns((pending + [q]) + reserved)
  {
    var before := pending + reserved;
    var n := |pending|;
    var all := (pending + [q]) + reserved;
    assert forall i :: 0 <= i < |all| && i != n ==> all[i] == before[if i < n then i else i - 1];
    assert forall i :: 0 <= i < |before| ==> before[i] in before;
  }

  lemma ScheduleKeeps(w: World, e: Event)
    requires Inv(w) && e.Schedule? && Enabled(w, e)
    ensures Inv(Apply(w, e))
  {
    var after := Apply(w, e);
    var q := Scheduled(w, e);
    ScheduledIsSound(w, e);
    ScheduledFresh(w, e);
    InsertKeepsRuns(w.pending, w.reserved, q);
    forall x: Id ensures Covered(after, x) {
      assert Covered(w, x);
      TotalSnoc(w.pending, q, LinesFor(x));
    }
  }

  lemma {:induction false} WithoutSplits(requests: seq<PayoutRequest>, q: PayoutRequest) returns (k: nat)
    requires q in requests
    ensures k < |requests| && requests[k] == q && Without(requests, q) == requests[..k] + requests[k + 1..]
  {
    if requests[0] == q {
      k := 0;
    } else {
      var j := WithoutSplits(requests[1..], q);
      k := j + 1;
    }
  }

  lemma {:induction false} WithoutAbsent(requests: seq<PayoutRequest>, q: PayoutRequest)
    requires q !in requests
    ensures Without(requests, q) == requests
  {
    if requests != [] {
      WithoutAbsent(requests[1..], q);
    }
  }

  /** The rows a fresh job adds: one per line, with references of their own. */
  lemma FreshReservation(w: World, q: PayoutRequest)
    requires LedgerShape(w) && SoundRequest(q) && FreshRun(w.ledger, q)
    ensures Reserved(w.ledger, q) == w.ledger + RowsFor(q)
    ensures !Conflicting(w.ledger, q, Lines(q.allocations))
    ensures UniqueReferences(Reserved(w.ledger, q))
    ensures Skeleton(Reserved(w.ledger, q)) == Skeleton(w.ledger) + RowsFor(q)
  {
    FreshLinesMissing(w.ledger, q);
    assert RowsFor(q) == Missing(w.ledger, q, Lines(q.allocations));
    LinesDistinct(q.allocations);
    SkeletonAppend(w.ledger, RowsFor(q));
    SkeletonPending(RowsFor(q));
  }

  /** A reservation debits each invoice by the job's lines for it, and credits nothing. */
  lemma ReservationDebits(ledger: seq<Row>, q: PayoutRequest, x: Id)
    ensures Debit(ledger + RowsFor(q), x) == Debit(ledger, x) + LinesFor(x)(q)
    ensures Credit(ledger + RowsFor(q), x) == Credit(ledger, x)
  {
    TotalAppend(ledger, RowsFor(q), DebitOf(x));
    TotalAppend(ledger, RowsFor(q), CreditOf(x));
    TotalZero(RowsFor(q), CreditOf(x));
    TotalCongruent(RowsFor(q), Lines(q.allocations), DebitOf(x), LineFor(x));
  }

  /** A job reserved before has all its rows: reserving it again changes nothing. */
  lemma ReservedAlready(w: World, q: PayoutRequest)
    requires Skeleton(w.ledger) == AllRows(w.reserved) && q in w.reserved
    ensures Reserved(w.ledger, q) == w.ledger
  {
    var lines := Lines(q.allocations);
    forall i | 0 <= i < |lines| ensures HasReference(w.ledger, RefOf(q, lines[i])) {
      AllRowsHas(w.reserved, q, i);
      SkeletonOrigin(w.ledger, RowFor(q, lines[i]));
    }
    MissingNone(w.ledger, q, lines);
  }

  lemma {:induction false} AllRowsHas(requests: seq<PayoutRequest>, q: PayoutRequest, i: nat)
    requires q in requests && i < |Lines(q.allocations)|
    ensures RowFor(q, Lines(q.allocations)[i]) in AllRows(requests)
  {
    var n := |requests| - 1;
    if requests[n] == q {
      assert RowsFor(q)[i] in RowsFor(q);
    } else {
      AllRowsHas(requests[..n], q, i);
    }
  }

  lemma {:induction false} SkeletonOrigin(ledger: seq<Row>, r: Row)
    requires r in Skeleton(ledger)
    ensures HasReference(ledger, r.reference)
  {
    var n := |ledger| - 1;
    if ledger[n].kind.PAYOUT? && ledger[n].(status := PENDING) == r {
    } else {
      SkeletonOrigin(ledger[..n], r);
      var k :| 0 <= k < n && ledger[..n][k].reference == r.reference;
      assert ledger[k].reference == r.reference;
    }
  }

  /** Moving a job from the pending list to the end of the reserved list permutes the jobs. */
  lemma MoveKeepsRuns(pending: seq<PayoutRequest>, reserved: seq<PayoutRequest>, k: nat)
    requires k < |pending| && DistinctRuns(pending + reserved)
    ensures var rest := pending[..k] + pending[k + 1..];
      && DistinctRuns(rest + (reserved + [pending[k]]))
      && (forall q :: q in rest + (reserved + [pending[k]]) ==> q in pending + reserved)
      && (forall q :: q in rest ==> q in pending && q.run != pending[k].run && q.batch != pending[k].batch)
  {
    var before := pending + reserved;
    var rest := pending[..k] + pending[k + 1..];
    var all := rest + (reserved + [pending[k]]);
    var n := |before|;
    assert all[n - 1] == before[k];
    assert forall i :: 0 <= i < n - 1 ==> all[i] == before[if i < k then i else i + 1];
    assert forall i :: 0 <= i < |rest| ==> rest[i] == all[i] && rest[i] == pending[if i < k then i else i + 1];
  }

  lemma FreshAfter(ledger: seq<Row>, q: PayoutRequest, p: PayoutRequest)
    requires FreshRun(ledger, p) && p.run != q.run && p.batch != q.batch
    ensures FreshRun(ledger + RowsFor(q), p)
  {
  }

  lemma ReserveKeepsJobs(w: World, q: PayoutRequest)
    requires LedgerShape(w) && JobsShape(w) && q in w.pending && q !in w.reserved
    ensures JobsShape(Apply(w, Reserve(q)))
    ensures forall x: Id :: Promised(Apply(w, Reserve(q)), x) == Promised(w, x) - LinesFor(x)(q)
  {
    var after := Apply(w, Reserve(q));
    var k := WithoutSplits(w.pending, q);
    MoveKeepsRuns(w.pending, w.reserved, k);
    assert q in w.pending + w.reserved;
    FreshReservation(w, q);
    forall p | p in after.pending ensures FreshRun(after.ledger, p) {
      FreshAfter(w.ledger, q, p);
    }
    forall x: Id ensures Promised(after, x) == Promised(w, x) - LinesFor(x)(q) {
      TotalSplit(w.pending, k, LinesFor(x));
    }
  }

  lemma ReservedIsNotPending(w: World, q: PayoutRequest)
    requires DistinctRuns(w.pending + w.reserved) && q in w.reserved
    ensures q !in w.pending
  {
    var all := w.pending + w.reserved;
    var j :| 0 <= j < |w.reserved| && w.reserved[j] == q;
    forall i | 0 <= i < |w.pending| ensures w.pending[i] != q {
      assert all[i].run != all[|w.pending| + j].run;
    }
  }

  lemma ReserveFreshRows(w: World, q: PayoutRequest)
    requires LedgerShape(w) && DeadIsRefused(w) && SoundRequest(q) && FreshRun(w.ledger, q)
    requires forall i :: 0 <= i < |RowsFor(q)| ==> RowShape(w.invoices, RowsFor(q)[i])
    ensures LedgerShape(Apply(w, Reserve(q))) && DeadIsRefused(Apply(w, Reserve(q)))
  {
    var after := Apply(w, Reserve(q));
    FreshReservation(w, q);
    forall i | 0 <= i < |after.ledger| ensures RowShape(after.invoices, after.ledger[i]) {
      if i < |w.ledger| {
        assert RowShape(w.invoices, w.ledger[i]);
      } else {
        assert RowShape(w.invoices, RowsFor(q)[i - |w.ledger|]);
      }
    }
  }

  lemma RowsOfJobShape(w: World, q: PayoutRequest)
    requires SoundRequest(q)
    ensures forall i :: 0 <= i < |RowsFor(q)| ==> RowShape(w.invoices, RowsFor(q)[i])
  {
  }

  lemma ReserveFreshSkeleton(w: World, q: PayoutRequest)
    requires LedgerShape(w) && Skeleton(w.ledger) == AllRows(w.reserved) && SoundRequest(q) && FreshRun(w.ledger, q)
    requires q !in w.reserved
    ensures Skeleton(Apply(w, Reserve(q)).ledger) == AllRows(Apply(w, Reserve(q)).reserved)
  {
    FreshReservation(w, q);
    assert (w.reserved + [q])[..|w.reserved|] == w.reserved;
  }

  lemma ReserveFreshCovers(w: World, q: PayoutRequest, x: Id)
    requires Covered(w, x) && LedgerShape(w) && SoundRequest(q) && FreshRun(w.ledger, q)
    requires Promised(Apply(w, Reserve(q)), x) == Promised(w, x) - LinesFor(x)(q)
    ensures Covered(Apply(w, Reserve(q)), x)
  {
    FreshReservation(w, q);
    ReservationDebits(w.ledger, q, x);
  }

  lemma ReserveKeeps(w: World, q: PayoutRequest)
    requires Inv(w) && Enabled(w, Reserve(q))
    ensures Inv(Apply(w, Reserve(q)))
  {
    if q in w.reserved {
      ReservedIsNotPending(w, q);
      ReservedAlready(w, q);
      WithoutAbsent(w.pending, q);
      assert Apply(w, Reserve(q)) == w;
    } else {
      assert q in w.pending + w.reserved;
      RowsOfJobShape(w, q);
      ReserveFreshRows(w, q);
      ReserveFreshSkeleton(w, q);
      ReserveKeepsJobs(w, q);
      forall x: Id ensures Covered(Apply(w, Reserve(q)), x) {
        ReserveFreshCovers(w, q, x);
      }
    }
  }

  /** `after` differs from `ledger` in payout statuses only, and brings no dead row back. */
  predicate QuietlyRestated(ledger: seq<Row>, after: seq<Row>) {
    && |after| == |ledger|
    && (forall i :: 0 <= i < |ledger| ==> after[i] == ledger[i].(status := after[i].status))
    && (forall i :: 0 <= i < |ledger| && !ledger[i].kind.PAYOUT? ==> after[i] == ledger[i])
    && (forall i :: 0 <= i < |ledger| && ledger[i].kind.PAYOUT? && LiveStatus(after[i].status)
          ==> LiveStatus(ledger[i].status))
  }

  lemma RestatedSums(ledger: seq<Row>, after: seq<Row>, x: Id)
    requires QuietlyRestated(ledger, after)
    requires forall i :: 0 <= i < |ledger| && ledger[i].kind.PAYOUT? ==> ledger[i].amount > 0
    ensures Debit(after, x) <= Debit(ledger, x) && Credit(after, x) == Credit(ledger, x)
  {
    TotalMonotone(after, ledger, DebitOf(x), DebitOf(x));
    TotalCongruent(after, ledger, CreditOf(x), CreditOf(x));
  }

  lemma RestatedShape(w: World, after: World)
    requires LedgerShape(w) && after == w.(ledger := after.ledger) && QuietlyRestated(w.ledger, after.ledger)
    ensures LedgerShape(after) && Skeleton(after.ledger) == Skeleton(w.ledger)
    ensures forall i :: 0 <= i < |w.ledger| && w.ledger[i].kind.PAYOUT? ==> w.ledger[i].amount > 0
  {
    SkeletonPointwise(after.ledger, w.ledger);
    forall i | 0 <= i < |w.ledger|
      ensures RowShape(after.invoices, after.ledger[i])
      ensures w.ledger[i].kind.PAYOUT? ==> w.ledger[i].amount > 0
    {
      assert RowShape(w.invoices, w.ledger[i]);
    }
  }

  /** Any rewrite of payout statuses that revives no dead row keeps the invariant. */
  lemma StatusChangeKeeps(w: World, after: World)
    requires Inv(w) && after == w.(ledger := after.ledger)
    requires QuietlyRestated(w.ledger, after.ledger) && DeadIsRefused(after)
    ensures Inv(after)
  {
    RestatedShape(w, after);
    forall q | q in after.pending ensures FreshRun(after.ledger, q) {
      assert FreshRun(w.ledger, q);
    }
    forall x: Id ensures Covered(after, x) {
      assert Covered(w, x);
      RestatedSums(w.ledger, after.ledger, x);
    }
  }

  /** The rows of a reserved job's batch are that job's rows. */
  lemma BatchRowIsOfRun(w: World, q: PayoutRequest, i: nat)
    requires DistinctRuns(w.pending + w.reserved) && Skeleton(w.ledger) == AllRows(w.reserved)
    requires q in w.reserved && i < |w.ledger| && InBatch(w.ledger[i], q.batch)
    ensures w.ledger[i].(status := PENDING) in RowsFor(q)
  {
    PayoutRowHasRequest(w, i);
    var r :| r in w.reserved && w.ledger[i].(status := PENDING) in RowsFor(r);
    var a :| 0 <= a < |w.reserved| && w.reserved[a] == r;
    var b :| 0 <= b < |w.reserved| && w.reserved[b] == q;
    var all := w.pending + w.reserved;
    assert all[|w.pending| + a] == r && all[|w.pending| + b] == q;
    assert r.batch == q.batch;
    assert a == b;
  }

  lemma PersistKeepsDeadRefused(w: World, q: PayoutRequest, transactions: seq<Transaction>)
    requires DistinctRuns(w.pending + w.reserved) && Skeleton(w.ledger) == AllRows(w.reserved)
    requires DeadIsRefused(w) && q in w.reserved && Honest(w, q, transactions)
    ensures DeadIsRefused(Apply(w, Persist(q, transactions)))
  {
    var after := Apply(w, Persist(q, transactions));
    forall i | 0 <= i < |after.ledger| && IsDeadDebit(after.ledger[i])
      ensures Transfer(after.ledger[i].reference.run, after.ledger[i].provider) in w.refused
    {
      if InBatch(w.ledger[i], q.batch) {
        BatchRowIsOfRun(w, q, i);
      } else {
        assert IsDeadDebit(w.ledger[i]);
      }
    }
  }

  lemma PersistKeeps(w: World, q: PayoutRequest, transactions: seq<Transaction>)
    requires Inv(w) && Enabled(w, Persist(q, transactions))
    ensures Inv(Apply(w, Persist(q, transactions)))
  {
    PersistKeepsDeadRefused(w, q, transactions);
    StatusChangeKeeps(w, Apply(w, Persist(q, transactions)));
  }

  lemma MarkUnknownKeeps(w: World, batch: Id)
    requires Inv(w)
    ensures Inv(Apply(w, MarkUnknown(batch)))
  {
    StatusChangeKeeps(w, Apply(w, MarkUnknown(batch)));
  }

  lemma StepKeeps(w: World, e: Event)
    requires Inv(w) && Enabled(w, e)
    ensures Inv(Apply(w, e))
  {
    match e
    case Settle(invoice, amount) =>
      CreditNonNegative(w, invoice);
      SettleShape(w, invoice, amount);
      SettleKeepsDead(w, invoice, amount);
      SettleKeepsJobs(w, invoice, amount);
      SettleCovers(w, invoice, amount);
    case Schedule(_, _, _) => ScheduleKeeps(w, e);
    case Reserve(q) => ReserveKeeps(w, q);
    case Create(_) =>
      assert forall x: Id :: Covered(w, x) ==> Covered(Apply(w, e), x);
    case Persist(q, transactions) => PersistKeeps(w, q, transactions);
    case MarkUnknown(batch) => MarkUnknownKeeps(w, batch);
    case PayOsTransfers(_, _) =>
      assert forall x: Id :: Covered(w, x) ==> Covered(Apply(w, e), x);
    case PayOsRefuses(_, _) =>
      assert forall x: Id :: Covered(w, x) ==> Covered(Apply(w, e), x);
  }

  // ---- All runs -------------------------------------------------------------

  lemma {:induction false} RunsKeep(w: World, events: seq<Event>)
    requires Inv(w) && Runs(w, events)
    ensures Inv(After(w, events))
    decreases |events|
  {
    if events != [] {
      StepKeeps(w, events[0]);
      RunsKeep(Apply(w, events[0]), events[1..]);
    }
  }

  lemma PaidWithinDebit(w: World, invoice: Id)
    requires LedgerShape(w) && Skeleton(w.ledger) == AllRows(w.reserved)
    requires DeadIsRefused(w) && w.transferred !! w.refused
    ensures PaidOut(w, invoice) <= Debit(w.ledger, invoice)
  {
    PaidOutIsOnRecord(w, invoice);
    forall i | 0 <= i < |w.ledger|
      ensures PaidRow(w.transferred, invoice)(w.ledger[i]) <= DebitOf(invoice)(w.ledger[i])
    {
      assert RowShape(w.invoices, w.ledger[i]);
      assert IsDeadDebit(w.ledger[i]) ==> Transfer(w.ledger[i].reference.run, w.ledger[i].provider) in w.refused;
    }
    TotalMonotone(w.ledger, w.ledger, PaidRow(w.transferred, invoice), DebitOf(invoice));
  }

  lemma InvSolvent(w: World, invoice: Id)
    requires Inv(w)
    ensures PaidOut(w, invoice) <= Debit(w.ledger, invoice)
    ensures Debit(w.ledger, invoice) + Promised(w, invoice) <= Credit(w.ledger, invoice)
    ensures 0 <= Promised(w, invoice)
  {
    assert Covered(w, invoice);
    forall q | q in w.pending ensures SoundRequest(q) {
      assert q in w.pending + w.reserved;
    }
    PromisedNonNegative(w.pending, invoice);
    PaidWithinDebit(w, invoice);
  }

  lemma TraceStarts(w: World, e: Event, states: seq<World>, events: seq<Event>)
    requires Enabled(w, e) && Trace(states, events) && states[0] == Apply(w, e)
    ensures Trace([w] + states, [e] + events)
  {
    forall i {:trigger ([e] + events)[i]} | 0 <= i < |events| + 1
      ensures Enabled(([w] + states)[i], ([e] + events)[i])
      ensures ([w] + states)[i + 1] == Apply(([w] + states)[i], ([e] + events)[i])
    {
      if i > 0 {
        assert ([e] + events)[i] == events[i - 1];
      }
    }
  }

  lemma {:induction false} RunIsTrace(w: World, events: seq<Event>) returns (states: seq<World>)
    requires Runs(w, events)
    ensures Trace(states, events) && states[0] == w && states[|events|] == After(w, events)
    decreases |events|
  {
    states := [w];
    if events != [] {
      var rest := RunIsTrace(Apply(w, events[0]), events[1..]);
      TraceStarts(w, events[0], rest, events[1..]);
      assert events == [events[0]] + events[1..];
      states := [w] + rest;
    }
  }

  lemma {:induction false} TraceKeeps(states: seq<World>, events: seq<Event>, k: nat)
    requires Trace(states, events) && Inv(states[0]) && k <= |events|
    ensures Inv(states[k])
  {
    if k > 0 {
      TraceKeeps(states, events, k - 1);
      StepKeeps(states[k - 1], events[k - 1]);
    }
  }

  /** Solvency: in every state of every run, what PayOS has moved for an invoice is within its live debits,
      and those together with every queued claim are within what the invoice brought in. */
  lemma Solvent(invoices: map<Id, Invoice>, states: seq<World>, events: seq<Event>, k: nat, invoice: Id)
    requires Trace(states, events) && states[0] == Start(invoices) && k <= |events|
    ensures PaidOut(states[k], invoice) <= Debit(states[k].ledger, invoice)
    ensures Debit(states[k].ledger, invoice) + Promised(states[k], invoice) <= Credit(states[k].ledger, invoice)
    ensures 0 <= Promised(states[k], invoice)
  {
    StartIsFine(invoices);
    TraceKeeps(states, events, k);
    InvSolvent(states[k], invoice);
  }

  lemma StartJobs(invoices: map<Id, Invoice>)
    ensures JobsShape(Start(invoices))
  {
    assert Start(invoices).pending + Start(invoices).reserved == [];
  }

  lemma StartCovers(invoices: map<Id, Invoice>, x: Id)
    ensures Covered(Start(invoices), x)
  {
  }

  lemma StartIsFine(invoices: map<Id, Invoice>)
    ensures Inv(Start(invoices))
  {
    StartJobs(invoices);
    forall x: Id ensures Covered(Start(invoices), x) {
      StartCovers(invoices, x);
    }
  }
}
