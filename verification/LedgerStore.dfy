/** The payout service's database side: the queries and transactions over ledger and batch rows. */
module LedgerStore {
  import opened Sums
  import opened Ledger
  import opened PayoutResults
  import opened PayoutJobs
  import opened Reservation
  import opened RetryQueue

  datatype Error =
    | NoAllocation(provider: Id)
    | AllocationMismatch(provider: Id)
    | MissingItem(provider: Id)
    | BatchMismatch(batch: Id)
    | ReservationConflict(reference: Reference)
    | BatchNotFound(batch: Id)
    | NoPayableProvider
    | PayOsUnavailable
    | NotifyFailed(count: nat)

  datatype Result<+T> = Success(value: T) | Failure(error: Error)

  lemma {:induction false} OffersOfCredits(ledger: seq<Row>, invoices: map<Id, Invoice>, rows: seq<Row>)
    ensures Offers(ledger, invoices, Filter(rows, (r: Row) => IsPaidCredit(invoices, r)))
      == Offers(ledger, invoices, rows)
  {
    if rows != [] {
      OffersOfCredits(ledger, invoices, rows[..|rows| - 1]);
    }
  }

  function ToProvider(provider: Id): Row -> bool {
    (r: Row) => r.provider == provider
  }

  function RowAmount(): Row -> int {
    (r: Row) => r.amount
  }

  lemma DebitGrows(rows: seq<Row>, i: nat)
    requires i < |rows|
    ensures forall x: Id :: Debit(rows[..i + 1], x) == Debit(rows[..i], x) + DebitOf(x)(rows[i])
  {
    assert rows[..i + 1] == rows[..i] + [rows[i]];
    forall x: Id ensures Debit(rows[..i + 1], x) == Debit(rows[..i], x) + DebitOf(x)(rows[i]) {
      TotalSnoc(rows[..i], rows[i], DebitOf(x));
    }
  }

  /** The ledger after the transactions have been applied, but before absent providers are marked. */
  function PartlyPersisted(ledger: seq<Row>, batch: Id, transactions: seq<Transaction>): (after: seq<Row>)
    ensures |after| == |ledger|
    ensures forall i :: 0 <= i < |ledger| ==>
      after[i] == if InBatch(ledger[i], batch) && Mentions(transactions, ledger[i].provider)
                  then ledger[i].(status := Verdict(ledger, batch, transactions, ledger[i].provider))
                  else ledger[i]
  {
    seq(|ledger|, i requires 0 <= i < |ledger| =>
      if InBatch(ledger[i], batch) && Mentions(transactions, ledger[i].provider)
      then ledger[i].(status := Verdict(ledger, batch, transactions, ledger[i].provider))
      else ledger[i])
  }

  lemma PersistOneMore(ledger: seq<Row>, batch: Id, transactions: seq<Transaction>, t: Transaction)
    ensures PartlyPersisted(ledger, batch, transactions + [t])
      == UpdateStatus(PartlyPersisted(ledger, batch, transactions),
                      (r: Row) => PaidTo(r, batch, t.reference), StatusFor(ledger, batch, t))
  {
    var more := transactions + [t];
    assert more[..|more| - 1] == transactions;
    forall p: Id ensures Mentions(more, p) <==> Mentions(transactions, p) || t.reference == p {
      assert more[|transactions|] == t;
      if Mentions(transactions, p) {
        var m :| 0 <= m < |transactions| && transactions[m].reference == p;
        assert more[m].reference == p;
      }
    }
  }

  lemma NotifiedOneMore(ledger: seq<Row>, batch: Id, transactions: seq<Transaction>, t: Transaction)
    ensures NotifiedBy(ledger, batch, transactions + [t])
      == NotifiedBy(ledger, batch, transactions) + if Succeeds(ledger, batch, t) then [t.reference] else []
  {
    assert (transactions + [t])[..|transactions|] == transactions;
  }

  /** A transaction for a provider the batch does not have changes nothing. */
  lemma UnknownReferenceIgnored(ledger: seq<Row>, batch: Id, transactions: seq<Transaction>, t: Transaction)
    requires !HasEntries(ledger, batch, t.reference)
    ensures PartlyPersisted(ledger, batch, transactions + [t]) == PartlyPersisted(ledger, batch, transactions)
  {
    PersistOneMore(ledger, batch, transactions, t);
    assert forall k :: 0 <= k < |ledger| ==> !PaidTo(ledger[k], batch, t.reference);
  }

  lemma ConflictInPart(ledger: seq<Row>, request: PayoutRequest, k: nat)
    requires k < |request.allocations|
    requires Conflicting(ledger, request, LinesOf(request.allocations[k]))
    ensures Conflicting(ledger, request, Lines(request.allocations))
  {
    var mine := LinesOf(request.allocations[k]);
    var j :| 0 <= j < |mine| && Conflicts(ledger, request, mine[j]);
    LinesUpTo(request.allocations, k);
    PrefixLines(request.allocations, k + 1);
    assert Lines(request.allocations)[|Lines(request.allocations[..k])| + j] == mine[j];
  }

  predicate DebitAmong(ids: set<Id>, r: Row) {
    IsLiveDebit(r) && r.invoice.Some? && r.invoice.value in ids
  }

  lemma {:induction false} FindRowAppend(a: seq<Row>, b: seq<Row>, reference: Reference)
    requires forall i :: 0 <= i < |b| ==> b[i].reference != reference
    ensures FindRow(a + b, reference) == FindRow(a, reference)
  {
    if a == [] {
      assert a + b == b;
    } else if a[0].reference != reference {
      assert (a + b)[1..] == a[1..] + b;
      FindRowAppend(a[1..], b, reference);
    }
  }

  /** One more line inside the transaction: rows inserted for earlier lines are not mistaken for its own. */
  lemma ReserveLine(ledger: seq<Row>, request: PayoutRequest, before: seq<Line>, l: Line)
    requires forall i :: 0 <= i < |before| ==> before[i].provider != l.provider || before[i].invoice != l.invoice
    ensures FindRow(ledger + Missing(ledger, request, before), RefOf(request, l)) == FindRow(ledger, RefOf(request, l))
    ensures Missing(ledger, request, before + [l])
      == Missing(ledger, request, before)
         + (if HasReference(ledger, RefOf(request, l)) then [] else [RowFor(request, l)])
  {
    var rows := Missing(ledger, request, before);
    forall k | 0 <= k < |rows| ensures rows[k].reference != RefOf(request, l) {
      MissingMembers(ledger, request, before, rows[k]);
    }
    FindRowAppend(ledger, rows, RefOf(request, l));
    assert (before + [l])[..|before|] == before;
  }

  lemma ReserveLineAt(ledger: seq<Row>, request: PayoutRequest, k: nat, j: nat)
    requires WellFormed(request) && k < |request.allocations| && j < |request.allocations[k].shares|
    ensures var done := Lines(request.allocations[..k]) + LinesOf(request.allocations[k])[..j];
      var l := LinesOf(request.allocations[k])[j];
      var next := Lines(request.allocations[..k]) + LinesOf(request.allocations[k])[..j + 1];
      && FindRow(ledger + Missing(ledger, request, done), RefOf(request, l)) == FindRow(ledger, RefOf(request, l))
      && Missing(ledger, request, next)
         == Missing(ledger, request, done)
            + (if HasReference(ledger, RefOf(request, l)) then [] else [RowFor(request, l)])
  {
    var earlier := Lines(request.allocations[..k]);
    var mine := LinesOf(request.allocations[k]);
    var done := earlier + mine[..j];
    var upTo := request.allocations[..k + 1];
    LinesUpTo(request.allocations, k);
    LinesDistinct(upTo);
    assert earlier + mine[..j + 1] == done + [mine[j]];
    forall i | 0 <= i < |done| ensures done[i].provider != mine[j].provider || done[i].invoice != mine[j].invoice {
      assert done[i] == Lines(upTo)[i] && mine[j] == Lines(upTo)[|done|];
    }
    ReserveLine(ledger, request, done, mine[j]);
  }

  /** The batch row, if there is one, still carries this job's reference or its PayOS id. */
  predicate BatchMatches(batches: map<Id, Batch>, request: PayoutRequest, payoutId: Option<Id>) {
    request.batch in batches ==>
      || batches[request.batch].batchId == request.run
      || payoutId.None?
      || batches[request.batch].batchId == payoutId.value
  }

  function WithBatch(batches: map<Id, Batch>, request: PayoutRequest): map<Id, Batch> {
    if request.batch in batches then batches
    else batches[request.batch := Batch(request.run, DRAFTING)]
  }

  predicate Reservable(ledger: seq<Row>, batches: map<Id, Batch>, request: PayoutRequest, payoutId: Option<Id>) {
    && Allocated(request) && BatchMatches(batches, request, payoutId) && ItemsCoverAllocations(request)
    && !Conflicting(ledger, request, Lines(request.allocations))
  }

  class Store {
    var ledger: seq<Row>
    var invoices: map<Id, Invoice>
    var batches: map<Id, Batch>

    constructor (ledger: seq<Row>, invoices: map<Id, Invoice>, batches: map<Id, Batch>)
      ensures this.ledger == ledger && this.invoices == invoices && this.batches == batches
    {
      this.ledger, this.invoices, this.batches := ledger, invoices, batches;
    }

    method DebitsByInvoice(debits: seq<Row>, ghost ids: set<Id>) returns (debitedByInvoice: map<Id, int>)
      requires forall k :: 0 <= k < |debits| ==> DebitAmong(ids, debits[k])
      ensures forall x :: x in debitedByInvoice ==> debitedByInvoice[x] == Debit(debits, x)
      ensures forall x :: x !in debitedByInvoice ==> Debit(debits, x) == 0
    {
      debitedByInvoice := map[];
      for i := 0 to |debits|
        invariant forall x :: x in debitedByInvoice ==> debitedByInvoice[x] == Debit(debits[..i], x)
        invariant forall x :: x !in debitedByInvoice ==> Debit(debits[..i], x) == 0
      {
        var debit := debits[i];
        assert DebitAmong(ids, debit);
        DebitGrows(debits, i);
        var x := debit.invoice.value;
        var debited := if x in debitedByInvoice then debitedByInvoice[x] else 0;
        debitedByInvoice := debitedByInvoice[x := debited + debit.amount];
      }
      assert debits[..|debits|] == debits;
    }

    /** What is still payable on each paid invoice: its income less its live debits. */
    method FindEligibleInvoices() returns (eligible: seq<EligibleInvoice>)
      ensures eligible == Eligible(ledger, invoices)
    {
      var paid := invoices;
      var credits := Filter(ledger, (r: Row) => IsPaidCredit(paid, r));
      eligible := [];
      OffersOfCredits(ledger, invoices, ledger);
      if credits == [] {
        return;
      }
      var ids := set i | 0 <= i < |credits| && credits[i].invoice.Some? :: credits[i].invoice.value;
      var debits := Filter(ledger, (r: Row) => DebitAmong(ids, r));
      forall k | 0 <= k < |debits| ensures DebitAmong(ids, debits[k]) {
        FilterMember(ledger, (r: Row) => DebitAmong(ids, r), debits[k]);
      }
      var debitedByInvoice := DebitsByInvoice(debits, ids);
      for i := 0 to |credits|
        invariant eligible == Offers(ledger, invoices, credits[..i])
      {
        var credit := credits[i];
        FilterMember(ledger, (r: Row) => IsPaidCredit(paid, r), credit);
        var x := credit.invoice.value;
        assert x in ids;
        TotalFilter(ledger, (r: Row) => DebitAmong(ids, r), DebitOf(x), DebitOf(x));
        var remaining := credit.amount - (if x in debitedByInvoice then debitedByInvoice[x] else 0);
        assert credits[..i + 1][..i] == credits[..i];
        if SafeInteger(remaining) && remaining > 0 {
          eligible := eligible + [EligibleInvoice(x, invoices[x].provider, remaining)];
        }
      }
      assert credits[..|credits|] == credits;
    }

    /** The checks on the request, item by item, before the transaction opens. */
    method CheckAllocations(request: PayoutRequest) returns (r: Result<()>)
      ensures r.Success? <==> Allocated(request)
    {
      for k := 0 to |request.items|
        invariant forall i :: 0 <= i < k ==> ItemAllocated(request, request.items[i])
      {
        var item := request.items[k];
        var a := AllocationIndex(request.allocations, item.provider);
        if a == |request.allocations| || item.provider !in request.invoiceMap
           || request.invoiceMap[item.provider] == []
        {
          return Failure(NoAllocation(item.provider));
        }
        var shares := request.allocations[a].shares;
        var ids := request.invoiceMap[item.provider];
        var total := Total(shares, ShareAmount());
        if !SafeInteger(total) || total != item.amount || |shares| != |ids|
           || exists i :: 0 <= i < |shares| && shares[i].invoice !in ids
        {
          return Failure(AllocationMismatch(item.provider));
        }
      }
      r := Success(());
    }

    /** One line: its row must agree if it is there, and is added if it is not. */
    method ReserveShare(request: PayoutRequest, k: nat, j: nat, rows: seq<Row>) returns (r: Result<seq<Row>>)
      requires WellFormed(request) && k < |request.allocations| && j < |request.allocations[k].shares|
      requires var earlier, mine := Lines(request.allocations[..k]), LinesOf(request.allocations[k]);
        rows == ledger + Missing(ledger, request, earlier + mine[..j])
      ensures var earlier, mine := Lines(request.allocations[..k]), LinesOf(request.allocations[k]);
        && (r.Success? <==> !Conflicts(ledger, request, mine[j]))
        && (r.Success? ==> r.value == ledger + Missing(ledger, request, earlier + mine[..j + 1]))
    {
      var allocation := request.allocations[k];
      var l := Line(allocation.provider, allocation.shares[j].invoice, allocation.shares[j].amount);
      ReserveLineAt(ledger, request, k, j);
      var existing := FindRow(rows, RefOf(request, l));
      if existing.Some? {
        if !Agrees(existing.value, request, l) {
          return Failure(ReservationConflict(RefOf(request, l)));
        }
        return Success(rows);
      }
      r := Success(rows + [RowFor(request, l)]);
    }

    /** The lines of one provider's allocation, inside the transaction. */
    method ReserveAllocation(request: PayoutRequest, k: nat, before: seq<Row>) returns (r: Result<seq<Row>>)
      requires WellFormed(request) && k < |request.allocations|
      requires before == ledger + Missing(ledger, request, Lines(request.allocations[..k]))
      ensures r.Success? <==> !Conflicting(ledger, request, LinesOf(request.allocations[k]))
      ensures r.Success? ==> r.value == ledger + Missing(ledger, request, Lines(request.allocations[..k + 1]))
    {
      var allocation := request.allocations[k];
      var rows := before;
      ghost var earlier := Lines(request.allocations[..k]);
      ghost var mine := LinesOf(allocation);
      assert earlier + mine[..0] == earlier;
      for j := 0 to |allocation.shares|
        invariant rows == ledger + Missing(ledger, request, earlier + mine[..j])
        invariant forall i :: 0 <= i < j ==> !Conflicts(ledger, request, mine[i])
      {
        var step := ReserveShare(request, k, j, rows);
        if step.Failure? {
          assert Conflicts(ledger, request, mine[j]);
          return step;
        }
        rows := step.value;
      }
      assert mine[..|allocation.shares|] == mine;
      LinesUpTo(request.allocations, k);
      r := Success(rows);
    }

    /** The transaction's rows: all lines of all allocations, or no success. */
    method ReserveRows(request: PayoutRequest) returns (r: Result<seq<Row>>)
      requires WellFormed(request)
      ensures r.Success? <==>
        ItemsCoverAllocations(request) && !Conflicting(ledger, request, Lines(request.allocations))
      ensures r.Success? ==> r.value == Reserved(ledger, request)
    {
      var rows := ledger;
      for k := 0 to |request.allocations|
        invariant rows == ledger + Missing(ledger, request, Lines(request.allocations[..k]))
        invariant !Conflicting(ledger, request, Lines(request.allocations[..k]))
        invariant forall i :: 0 <= i < k ==> HasItem(request.items, request.allocations[i].provider)
      {
        if !HasItem(request.items, request.allocations[k].provider) {
          return Failure(MissingItem(request.allocations[k].provider));
        }
        LinesUpTo(request.allocations, k);
        var step := ReserveAllocation(request, k, rows);
        if step.Failure? {
          ConflictInPart(ledger, request, k);
          return Failure(step.error);
        }
        rows := step.value;
      }
      assert request.allocations[..|request.allocations|] == request.allocations;
      r := Success(rows);
    }

    /** Reserve the job's invoice shares, all or none, and only those not reserved before. */
    method EnsureBatchReservation(request: PayoutRequest, payoutId: Option<Id>) returns (r: Result<()>)
      requires WellFormed(request)
      modifies this`ledger, this`batches
      ensures r.Success? <==> old(Reservable(ledger, batches, request, payoutId))
      ensures r.Success? ==> ledger == Reserved(old(ledger), request) && batches == WithBatch(old(batches), request)
      ensures r.Failure? ==> ledger == old(ledger) && batches == old(batches)
    {
      r := CheckAllocations(request);
      if r.Failure? {
        return;
      }
      if !BatchMatches(batches, request, payoutId) {
        return Failure(BatchMismatch(request.batch));
      }
      var rows := ReserveRows(request);
      if rows.Failure? {
        return Failure(rows.error);
      }
      batches := WithBatch(batches, request);
      ledger := rows.value;
    }

    /** The batch's rows, gathered by provider. */
    method EntriesByProvider(batchId: Id) returns (entriesByProvider: map<Id, seq<Row>>)
      ensures forall p :: p in entriesByProvider <==> HasEntries(ledger, batchId, p)
      ensures forall p :: p in entriesByProvider ==>
        Total(entriesByProvider[p], RowAmount()) == Requested(ledger, batchId, p)
    {
      var entries := Filter(ledger, (row: Row) => InBatch(row, batchId));
      entriesByProvider := map[];
      for i := 0 to |entries|
        invariant forall p :: p in entriesByProvider ==>
          entriesByProvider[p] == Filter(entries[..i], ToProvider(p)) && entriesByProvider[p] != []
        invariant forall p :: p !in entriesByProvider ==> Filter(entries[..i], ToProvider(p)) == []
      {
        var entry := entries[i];
        assert entries[..i + 1] == entries[..i] + [entry];
        forall p: Id ensures Filter(entries[..i + 1], ToProvider(p))
          == Filter(entries[..i], ToProvider(p)) + (if entry.provider == p then [entry] else [])
        {
          FilterSnoc(entries[..i], entry, ToProvider(p));
        }
        var known := if entry.provider in entriesByProvider then entriesByProvider[entry.provider] else [];
        entriesByProvider := entriesByProvider[entry.provider := known + [entry]];
      }
      assert entries[..|entries|] == entries;
      forall p: Id
        ensures p in entriesByProvider <==> HasEntries(ledger, batchId, p)
        ensures p in entriesByProvider ==> Total(entriesByProvider[p], RowAmount()) == Requested(ledger, batchId, p)
      {
        EntriesOfProvider(ledger, batchId, p);
      }
    }

    /** One transaction: its provider's rows take the mapped state, or UNKNOWN if the amount differs. */
    method ApplyTransaction(batchId: Id, entriesByProvider: map<Id, seq<Row>>, t: Transaction)
      returns (succeeded: bool)
      requires t.reference in entriesByProvider
      modifies this`ledger
      ensures var status := if t.amount == Total(entriesByProvider[t.reference], RowAmount())
                            then MapTransactionStatus(t.state) else UNKNOWN;
        && ledger == UpdateStatus(old(ledger), (row: Row) => PaidTo(row, batchId, t.reference), status)
        && succeeded == (status == SUCCEEDED)
    {
      var requested := Total(entriesByProvider[t.reference], RowAmount());
      var status := if t.amount == requested then MapTransactionStatus(t.state) else UNKNOWN;
      ledger := UpdateStatus(ledger, (row: Row) => PaidTo(row, batchId, t.reference), status);
      succeeded := status == SUCCEEDED;
    }

    /** One update per transaction, in response order. */
    method ApplyTransactions(batchId: Id, entriesByProvider: map<Id, seq<Row>>, transactions: seq<Transaction>)
      returns (notified: seq<Id>)
      requires forall p :: p in entriesByProvider <==> HasEntries(ledger, batchId, p)
      requires forall p :: p in entriesByProvider ==>
        Total(entriesByProvider[p], RowAmount()) == Requested(ledger, batchId, p)
      modifies this`ledger
      ensures notified == NotifiedBy(old(ledger), batchId, transactions)
      ensures ledger == PartlyPersisted(old(ledger), batchId, transactions)
    {
      ghost var before := ledger;
      notified := [];
      assert ledger == PartlyPersisted(before, batchId, []);
      for i := 0 to |transactions|
        invariant notified == NotifiedBy(before, batchId, transactions[..i])
        invariant ledger == PartlyPersisted(before, batchId, transactions[..i])
      {
        var t := transactions[i];
        assert transactions[..i + 1] == transactions[..i] + [t];
        NotifiedOneMore(before, batchId, transactions[..i], t);
        if t.reference in entriesByProvider {
          PersistOneMore(before, batchId, transactions[..i], t);
          var succeeded := ApplyTransaction(batchId, entriesByProvider, t);
          if succeeded {
            notified := notified + [t.reference];
          }
        } else {
          UnknownReferenceIgnored(before, batchId, transactions[..i], t);
        }
      }
      assert transactions[..|transactions|] == transactions;
    }

    /** Providers of the batch that the response does not mention become UNKNOWN. */
    method MarkAbsent(batchId: Id, providers: set<Id>, transactions: seq<Transaction>, ghost before: seq<Row>)
      requires ledger == PartlyPersisted(before, batchId, transactions)
      requires forall p :: p in providers <==> HasEntries(before, batchId, p)
      modifies this`ledger
      ensures ledger == Persisted(before, batchId, transactions)
    {
      var returned := set i | 0 <= i < |transactions| :: transactions[i].reference;
      var absent := providers - returned;
      forall k | 0 <= k < |before| && InBatch(before[k], batchId)
        ensures before[k].provider in absent <==> !Mentions(transactions, before[k].provider)
      {
        assert PaidTo(before[k], batchId, before[k].provider);
      }
      while absent != {}
        invariant |ledger| == |before|
        invariant forall k :: 0 <= k < |before| ==>
          ledger[k] == if InBatch(before[k], batchId) && before[k].provider !in absent
                       then before[k].(status := Verdict(before, batchId, transactions, before[k].provider))
                       else before[k]
        invariant forall p :: p in absent ==> !Mentions(transactions, p)
        decreases absent
      {
        var p :| p in absent;
        ledger := UpdateStatus(ledger, (row: Row) => PaidTo(row, batchId, p), UNKNOWN);
        absent := absent - {p};
      }
    }

    /** Fold a PayOS response into the batch and its ledger rows; name the providers now paid. */
    method PersistPayoutResults(batchId: Id, result: Payout) returns (r: Result<seq<Id>>)
      modifies this`ledger, this`batches
      ensures batchId !in old(batches) ==>
        r == Failure(BatchNotFound(batchId)) && ledger == old(ledger) && batches == old(batches)
      ensures batchId in old(batches) ==>
        && r == Success(NotifiedBy(old(ledger), batchId, result.transactions))
        && ledger == Persisted(old(ledger), batchId, result.transactions)
        && batches == old(batches)[batchId := Batch(result.id, result.approvalState)]
    {
      if batchId !in batches {
        return Failure(BatchNotFound(batchId));
      }
      batches := batches[batchId := Batch(result.id, result.approvalState)];
      var entriesByProvider := EntriesByProvider(batchId);
      var notified := ApplyTransactions(batchId, entriesByProvider, result.transactions);
      MarkAbsent(batchId, entriesByProvider.Keys, result.transactions, old(ledger));
      r := Success(notified);
    }

    /** A failed attempt: the batch waits for reconciliation and its undecided rows become UNKNOWN. */
    method MarkBatchUnknown(batchId: Id)
      modifies this`ledger, this`batches
      ensures batches == if batchId in old(batches)
        then old(batches)[batchId := old(batches)[batchId].(status := PROCESSING_BATCH)] else old(batches)
      ensures ledger == UpdateStatus(old(ledger),
        (row: Row) => InBatch(row, batchId) && (row.status.PENDING? || row.status.PROCESSING?), UNKNOWN)
    {
      if batchId in batches {
        batches := batches[batchId := batches[batchId].(status := PROCESSING_BATCH)];
      }
      ledger := UpdateStatus(ledger,
        (row: Row) => InBatch(row, batchId) && (row.status.PENDING? || row.status.PROCESSING?), UNKNOWN);
    }
  }

  lemma LinesUpTo(allocations: seq<Allocation>, k: nat)
    requires k < |allocations|
    ensures Lines(allocations[..k + 1]) == Lines(allocations[..k]) + LinesOf(allocations[k])
  {
    assert allocations[..k + 1][..k] == allocations[..k];
  }

  lemma {:induction false} PrefixLines(allocations: seq<Allocation>, k: nat)
    requires k <= |allocations|
    ensures Lines(allocations[..k]) <= Lines(allocations)
  {
    if k < |allocations| {
      var n := |allocations| - 1;
      assert allocations[..n][..k] == allocations[..k];
      PrefixLines(allocations[..n], k);
    } else {
      assert allocations[..k] == allocations;
    }
  }

  /** The rows gathered for a provider are the ledger's rows for it, and sum to what was requested. */
  lemma EntriesOfProvider(ledger: seq<Row>, batch: Id, p: Id)
    ensures var kept := Filter(Filter(ledger, (row: Row) => InBatch(row, batch)), ToProvider(p));
      && (kept != [] <==> HasEntries(ledger, batch, p))
      && Total(kept, RowAmount()) == Requested(ledger, batch, p)
  {
    var entries := Filter(ledger, (row: Row) => InBatch(row, batch));
    var kept := Filter(entries, ToProvider(p));
    TotalFilter(entries, ToProvider(p), RowAmount(),
                (row: Row) => if row.provider == p then row.amount else 0);
    TotalFilter(ledger, (row: Row) => InBatch(row, batch), (row: Row) => if row.provider == p then row.amount else 0,
                AmountIn(batch, p));
    if kept != [] {
      FilterMember(entries, ToProvider(p), kept[0]);
      FilterMember(ledger, (row: Row) => InBatch(row, batch), kept[0]);
      var i :| 0 <= i < |ledger| && ledger[i] == kept[0];
      assert PaidTo(ledger[i], batch, p);
    }
    if HasEntries(ledger, batch, p) {
      var i :| 0 <= i < |ledger| && PaidTo(ledger[i], batch, p);
      FilterMember(ledger, (row: Row) => InBatch(row, batch), ledger[i]);
      FilterMember(entries, ToProvider(p), ledger[i]);
    }
  }
}
