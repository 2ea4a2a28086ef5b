/** One amount from offer to comparison: what a run offers, asks PayOS for, reserves, and later checks. */
module AmountChain {
  import opened Sums
  import opened Ledger
  import opened PayoutResults
  import opened PayoutJobs
  import opened Reservation
  import opened MoneyMachine
  import opened MoneySafety
  import opened LedgerStore

  /** Every job a scheduled run builds passes the reservation's checks, and the rows it reserves for a
      provider add up to the amount on that provider's instruction. */
  lemma ScheduledJobIsReservable(w: World, e: Event, batches: map<Id, Batch>)
    requires Inv(w) && e.Schedule? && Unused(w, e.batch, e.run) && e.batch !in batches
    ensures var q := Scheduled(w, e);
      && Reservable(w.ledger, batches, q, None)
      && forall k :: 0 <= k < |q.items| ==>
          Requested(Reserved(w.ledger, q), q.batch, q.items[k].provider) == q.items[k].amount
  {
    var q := Scheduled(w, e);
    ScheduledIsSound(w, e);
    ScheduledFresh(w, e);
    FreshLinesMissing(w.ledger, q);
    forall k | 0 <= k < |q.items|
      ensures Requested(Reserved(w.ledger, q), q.batch, q.items[k].provider) == q.items[k].amount
    {
      ReservedRowsMatchItem(w.ledger, q, k);
    }
  }

  function BatchAmount(batch: Id, provider: Id): PayoutRequest -> int {
    (q: PayoutRequest) => Total(RowsFor(q), AmountIn(batch, provider))
  }

  lemma {:induction false} SkeletonRequested(ledger: seq<Row>, batch: Id, provider: Id)
    ensures Total(Skeleton(ledger), AmountIn(batch, provider)) == Requested(ledger, batch, provider)
  {
    if ledger != [] {
      var n := |ledger| - 1;
      var w := AmountIn(batch, provider);
      assert ledger == ledger[..n] + [ledger[n]];
      SkeletonRequested(ledger[..n], batch, provider);
      TotalSnoc(ledger[..n], ledger[n], w);
      TotalSnoc(Skeleton(ledger[..n]), ledger[n].(status := PENDING), w);
    }
  }

  lemma {:induction false} AllRowsRequested(requests: seq<PayoutRequest>, batch: Id, provider: Id)
    ensures Total(AllRows(requests), AmountIn(batch, provider)) == Total(requests, BatchAmount(batch, provider))
  {
    if requests != [] {
      var n := |requests| - 1;
      AllRowsRequested(requests[..n], batch, provider);
      TotalLast(requests, BatchAmount(batch, provider));
      TotalAppend(AllRows(requests[..n]), RowsFor(requests[n]), AmountIn(batch, provider));
    }
  }

  /** In every reachable state, whatever statuses the rows have by then, the figure a response is
      compared with is the amount PayOS was asked to pay. */
  lemma ComparedAmountIsAskedAmount(w: World, q: PayoutRequest, k: nat)
    requires Inv(w) && q in w.reserved && k < |q.items|
    ensures Requested(w.ledger, q.batch, q.items[k].provider) == q.items[k].amount
  {
    assert q in w.pending + w.reserved;
    SkeletonRequested(w.ledger, q.batch, q.items[k].provider);
    AllRowsRequested(w.reserved, q.batch, q.items[k].provider);
    OnlyOwnRows(w.reserved, q, q.items[k].provider) by {
      assert w.reserved == (w.pending + w.reserved)[|w.pending|..];
    }
    ItemAmountOfRows(q, k);
  }

  lemma OnlyOwnRows(requests: seq<PayoutRequest>, q: PayoutRequest, provider: Id)
    requires DistinctRuns(requests) && q in requests
    ensures Total(requests, BatchAmount(q.batch, provider)) == Total(RowsFor(q), AmountIn(q.batch, provider))
  {
    var m :| 0 <= m < |requests| && requests[m] == q;
    forall i | 0 <= i < |requests| && i != m ensures BatchAmount(q.batch, provider)(requests[i]) == 0 {
      TotalZero(RowsFor(requests[i]), AmountIn(q.batch, provider));
    }
    TotalSingle(requests, BatchAmount(q.batch, provider), m);
  }

  lemma ItemAmountOfRows(q: PayoutRequest, k: nat)
    requires SoundRequest(q) && k < |q.items|
    ensures Total(RowsFor(q), AmountIn(q.batch, q.items[k].provider)) == q.items[k].amount
  {
    var provider := q.items[k].provider;
    assert ItemAllocated(q, q.items[k]);
    TotalCongruent(RowsFor(q), Lines(q.allocations), AmountIn(q.batch, provider), LineTo(provider));
    LinesToProvider(q.allocations, AllocationIndex(q.allocations, provider));
  }

  /** A reserved job that comes round again finds its own rows: no conflict, nothing added, whatever was
      persisted in between. Only a batch row re-addressed to a third id can still refuse it. */
  lemma RetriedJobIsReservable(w: World, q: PayoutRequest, batches: map<Id, Batch>, payoutId: Option<Id>)
    requires Inv(w) && q in w.reserved
    ensures Reserved(w.ledger, q) == w.ledger
    ensures Reservable(w.ledger, batches, q, payoutId) <==> BatchMatches(batches, q, payoutId)
  {
    ReservedAlready(w, q);
    assert q in w.pending + w.reserved;
    var lines := Lines(q.allocations);
    forall i | 0 <= i < |lines| ensures !Conflicts(w.ledger, q, lines[i]) {
      OwnRowAgrees(w, q, i);
    }
  }

  lemma SameRunSameRequest(w: World, q: PayoutRequest, r: PayoutRequest)
    requires DistinctRuns(w.pending + w.reserved) && q in w.reserved && r in w.reserved
    requires q.run == r.run || q.batch == r.batch
    ensures q == r
  {
    var all := w.pending + w.reserved;
    var a :| 0 <= a < |w.reserved| && w.reserved[a] == r;
    var b :| 0 <= b < |w.reserved| && w.reserved[b] == q;
    assert all[|w.pending| + a] == r && all[|w.pending| + b] == q;
  }

  lemma OwnRowAgrees(w: World, q: PayoutRequest, i: nat)
    requires LedgerShape(w) && DistinctRuns(w.pending + w.reserved) && Skeleton(w.ledger) == AllRows(w.reserved)
    requires q in w.reserved && SoundRequest(q) && i < |Lines(q.allocations)|
    ensures !Conflicts(w.ledger, q, Lines(q.allocations)[i])
  {
    var l := Lines(q.allocations)[i];
    var found := FindRow(w.ledger, RefOf(q, l));
    if found.Some? {
      var k :| 0 <= k < |w.ledger| && w.ledger[k] == found.value;
      assert RowShape(w.invoices, w.ledger[k]);
      PayoutRowHasRequest(w, k);
      var r :| r in w.reserved && w.ledger[k].(status := PENDING) in RowsFor(r);
      SameRunSameRequest(w, q, r);
      LineOfOwnRow(q, found.value, i);
    }
  }

  lemma LineOfOwnRow(q: PayoutRequest, row: Row, i: nat)
    requires WellFormed(q) && row.(status := PENDING) in RowsFor(q)
    requires i < |Lines(q.allocations)| && row.reference == RefOf(q, Lines(q.allocations)[i])
    ensures Agrees(row, q, Lines(q.allocations)[i])
  {
    var j :| 0 <= j < |RowsFor(q)| && RowsFor(q)[j] == row.(status := PENDING);
    LinesDistinct(q.allocations);
    assert j == i;
  }
}
