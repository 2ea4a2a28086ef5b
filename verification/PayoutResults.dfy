/** Folding a PayOS response into the ledger: what one pass over its transactions amounts to. */
module PayoutResults {
  import opened Sums
  import opened Ledger

  datatype TransactionState =
    | TxSucceeded | TxFailed | TxReversed | TxCancelled | TxReceived | TxProcessing | TxOnHold | TxOther

  datatype Transaction = Transaction(reference: Id, amount: int, state: TransactionState)

  datatype BatchStatus =
    | DRAFTING | SUBMITTED | APPROVED | REJECTED | CANCELLED_BATCH | SCHEDULED
    | PROCESSING_BATCH | FAILED_BATCH | PARTIAL_COMPLETED | COMPLETED

  datatype Payout = Payout(id: Id, approvalState: BatchStatus, transactions: seq<Transaction>)

  datatype Batch = Batch(batchId: Id, status: BatchStatus)

  function MapTransactionStatus(state: TransactionState): Status {
    match state
    case TxSucceeded => SUCCEEDED
    case TxFailed => FAILED
    case TxReversed => FAILED
    case TxCancelled => CANCELLED
    case TxReceived => PROCESSING
    case TxProcessing => PROCESSING
    case TxOnHold => UNKNOWN
    case TxOther => UNKNOWN
  }

  predicate PaidTo(r: Row, batch: Id, provider: Id) {
    InBatch(r, batch) && r.provider == provider
  }

  function AmountIn(batch: Id, provider: Id): Row -> int {
    (r: Row) => if PaidTo(r, batch, provider) then r.amount else 0
  }

  /** What the ledger asked PayOS to pay a provider in a batch. */
  function Requested(ledger: seq<Row>, batch: Id, provider: Id): int {
    Total(ledger, AmountIn(batch, provider))
  }

  predicate HasEntries(ledger: seq<Row>, batch: Id, provider: Id) {
    exists i :: 0 <= i < |ledger| && PaidTo(ledger[i], batch, provider)
  }

  function StatusFor(ledger: seq<Row>, batch: Id, t: Transaction): Status {
    if t.amount == Requested(ledger, batch, t.reference) then MapTransactionStatus(t.state) else UNKNOWN
  }

  predicate Mentions(transactions: seq<Transaction>, provider: Id) {
    exists i :: 0 <= i < |transactions| && transactions[i].reference == provider
  }

  /** The last transaction naming a provider: the one whose update survives the loop. */
  function LastFor(transactions: seq<Transaction>, provider: Id): (last: Option<Transaction>)
    ensures last.None? <==> !Mentions(transactions, provider)
    ensures last.Some? ==> exists i ::
      && 0 <= i < |transactions| && transactions[i] == last.value && last.value.reference == provider
      && forall j :: i < j < |transactions| ==> transactions[j].reference != provider
  {
    if transactions == [] then None
    else
      var n := |transactions| - 1;
      assert transactions == transactions[..n] + [transactions[n]];
      if transactions[n].reference == provider then Some(transactions[n])
      else LastFor(transactions[..n], provider)
  }

  /** The status a response gives to all of a provider's rows in a batch. */
  function Verdict(ledger: seq<Row>, batch: Id, transactions: seq<Transaction>, provider: Id): Status {
    match LastFor(transactions, provider)
    case None => UNKNOWN
    case Some(t) => StatusFor(ledger, batch, t)
  }

  /** The ledger after a response has been folded in. */
  function Persisted(ledger: seq<Row>, batch: Id, transactions: seq<Transaction>): (after: seq<Row>)
    ensures |after| == |ledger|
    ensures forall i :: 0 <= i < |ledger| ==>
      after[i] == if InBatch(ledger[i], batch)
                  then ledger[i].(status := Verdict(ledger, batch, transactions, ledger[i].provider))
                  else ledger[i]
  {
    seq(|ledger|, i requires 0 <= i < |ledger| =>
      if InBatch(ledger[i], batch)
      then ledger[i].(status := Verdict(ledger, batch, transactions, ledger[i].provider))
      else ledger[i])
  }

  predicate Succeeds(ledger: seq<Row>, batch: Id, t: Transaction) {
    HasEntries(ledger, batch, t.reference) && StatusFor(ledger, batch, t) == SUCCEEDED
  }

  /** The provider ids handed to the notification job, in response order. */
  function NotifiedBy(ledger: seq<Row>, batch: Id, transactions: seq<Transaction>): (ids: seq<Id>)
    ensures forall p :: p in ids <==>
      exists i :: 0 <= i < |transactions| && transactions[i].reference == p && Succeeds(ledger, batch, transactions[i])
  {
    if transactions == [] then []
    else
      var n := |transactions| - 1;
      var before := NotifiedBy(ledger, batch, transactions[..n]);
      assert transactions == transactions[..n] + [transactions[n]];
      if Succeeds(ledger, batch, transactions[n]) then before + [transactions[n].reference] else before
  }

  predicate OncePerProvider(transactions: seq<Transaction>) {
    forall i, j :: 0 <= i < j < |transactions| ==> transactions[i].reference != transactions[j].reference
  }

  /** All rows of a (batch, provider) pair leave the fold with one status, and keep their amounts. */
  lemma OneStatusPerProvider(ledger: seq<Row>, batch: Id, transactions: seq<Transaction>, i: nat, j: nat)
    requires i < |ledger| && j < |ledger|
    requires InBatch(ledger[i], batch) && InBatch(ledger[j], batch) && ledger[i].provider == ledger[j].provider
    ensures var after := Persisted(ledger, batch, transactions);
      && after[i].status == after[j].status
      && after[i].amount == ledger[i].amount && after[j].amount == ledger[j].amount
      && Requested(after, batch, ledger[i].provider) == Requested(ledger, batch, ledger[i].provider)
  {
    var after := Persisted(ledger, batch, transactions);
    var w := AmountIn(batch, ledger[i].provider);
    TotalCongruent(after, ledger, w, w);
  }

  /** No transaction after `k` names the provider. */
  predicate IsLast(transactions: seq<Transaction>, k: nat, provider: Id) {
    && k < |transactions| && transactions[k].reference == provider
    && forall j :: k < j < |transactions| ==> transactions[j].reference != provider
  }

  lemma LastIs(transactions: seq<Transaction>, provider: Id) returns (m: nat)
    requires Mentions(transactions, provider)
    ensures IsLast(transactions, m, provider) && LastFor(transactions, provider) == Some(transactions[m])
    ensures forall k :: 0 <= k < |transactions| && IsLast(transactions, k, provider) ==> k == m
  {
    var last := LastFor(transactions, provider);
    m :| 0 <= m < |transactions| && transactions[m] == last.value && last.value.reference == provider
         && forall j :: m < j < |transactions| ==> transactions[j].reference != provider;
  }

  /** Transaction `k` is the last to name the provider, asks for exactly what the ledger does, and has `status`. */
  predicate Decides(ledger: seq<Row>, batch: Id, transactions: seq<Transaction>, provider: Id, k: nat, status: Status) {
    && IsLast(transactions, k, provider)
    && transactions[k].amount == Requested(ledger, batch, provider)
    && MapTransactionStatus(transactions[k].state) == status
  }

  /** What any response leaves on a row, read off the response: a row of the batch gets a status other than
      UNKNOWN exactly when the last transaction for its provider has that status and the exact amount. So it is
      UNKNOWN if the provider is left out, if the amount differs and if PayOS's state says nothing, whatever it
      was before and whatever earlier transactions said. Nothing but the status changes, and nothing outside
      the batch. */
  lemma ResponseDecidesRow(ledger: seq<Row>, batch: Id, transactions: seq<Transaction>, i: nat, status: Status)
    requires i < |ledger| && status != UNKNOWN
    ensures var after := Persisted(ledger, batch, transactions)[i];
      && (InBatch(ledger[i], batch) ==>
            (after.status == status <==>
             exists k ::
               0 <= k < |transactions| && Decides(ledger, batch, transactions, ledger[i].provider, k, status)))
      && after == ledger[i].(status := after.status)
      && (!InBatch(ledger[i], batch) ==> after == ledger[i])
  {
    var provider := ledger[i].provider;
    if Mentions(transactions, provider) {
      var m := LastIs(transactions, provider);
      assert StatusFor(ledger, batch, transactions[m]) == status ==>
          Decides(ledger, batch, transactions, provider, m, status);
    }
  }

  /** Folding the same response twice is folding it once. */
  lemma PersistIsIdempotent(ledger: seq<Row>, batch: Id, transactions: seq<Transaction>)
    ensures var once := Persisted(ledger, batch, transactions);
      && Persisted(once, batch, transactions) == once
      && NotifiedBy(once, batch, transactions) == NotifiedBy(ledger, batch, transactions)
  {
    var once := Persisted(ledger, batch, transactions);
    forall p: Id ensures Requested(once, batch, p) == Requested(ledger, batch, p) {
      TotalCongruent(once, ledger, AmountIn(batch, p), AmountIn(batch, p));
    }
    forall p: Id ensures HasEntries(once, batch, p) == HasEntries(ledger, batch, p) {
      if HasEntries(ledger, batch, p) {
        var i :| 0 <= i < |ledger| && PaidTo(ledger[i], batch, p);
        assert PaidTo(once[i], batch, p);
      }
      if HasEntries(once, batch, p) {
        var i :| 0 <= i < |once| && PaidTo(once[i], batch, p);
        assert PaidTo(ledger[i], batch, p);
      }
    }
    NotifiedDependsOnRequests(ledger, once, batch, transactions);
    assert Persisted(once, batch, transactions) == once;
  }

  lemma {:induction false} NotifiedDependsOnRequests(
    a: seq<Row>, b: seq<Row>, batch: Id, transactions: seq<Transaction>)
    requires forall p: Id :: Requested(b, batch, p) == Requested(a, batch, p)
    requires forall p: Id :: HasEntries(b, batch, p) == HasEntries(a, batch, p)
    ensures NotifiedBy(b, batch, transactions) == NotifiedBy(a, batch, transactions)
  {
    if transactions != [] {
      NotifiedDependsOnRequests(a, b, batch, transactions[..|transactions| - 1]);
    }
  }

  /** Some rows of `provider` in this batch are marked SUCCEEDED. */
  predicate MarkedSucceeded(ledger: seq<Row>, batch: Id, provider: Id) {
    exists i :: 0 <= i < |ledger| && PaidTo(ledger[i], batch, provider) && ledger[i].status == SUCCEEDED
  }

  /** A later transaction for the same provider takes an earlier success back. */
  predicate Retracted(ledger: seq<Row>, batch: Id, transactions: seq<Transaction>, provider: Id) {
    && provider in NotifiedBy(ledger, batch, transactions)
    && exists i :: 0 <= i < |transactions|
        && IsLast(transactions, i, provider) && StatusFor(ledger, batch, transactions[i]) != SUCCEEDED
  }

  lemma MarkedExactly(ledger: seq<Row>, batch: Id, transactions: seq<Transaction>, provider: Id)
    ensures MarkedSucceeded(Persisted(ledger, batch, transactions), batch, provider) <==>
      HasEntries(ledger, batch, provider) && Verdict(ledger, batch, transactions, provider) == SUCCEEDED
  {
    var after := Persisted(ledger, batch, transactions);
    if MarkedSucceeded(after, batch, provider) {
      var i :| 0 <= i < |after| && PaidTo(after[i], batch, provider) && after[i].status == SUCCEEDED;
      assert PaidTo(ledger[i], batch, provider);
    }
    if HasEntries(ledger, batch, provider) && Verdict(ledger, batch, transactions, provider) == SUCCEEDED {
      var i :| 0 <= i < |ledger| && PaidTo(ledger[i], batch, provider);
      assert PaidTo(after[i], batch, provider);
    }
  }

  /** The notified providers are exactly those marked SUCCEEDED, unless a later transaction
      for the same provider retracts the success: then, and only then, the two differ. */
  lemma NotifiedExactlySucceeded(ledger: seq<Row>, batch: Id, transactions: seq<Transaction>, provider: Id)
    ensures MarkedSucceeded(Persisted(ledger, batch, transactions), batch, provider)
            ==> provider in NotifiedBy(ledger, batch, transactions)
    ensures provider in NotifiedBy(ledger, batch, transactions) ==>
      (MarkedSucceeded(Persisted(ledger, batch, transactions), batch, provider)
       <==> !Retracted(ledger, batch, transactions, provider))
    ensures OncePerProvider(transactions) ==> !Retracted(ledger, batch, transactions, provider)
  {
    MarkedExactly(ledger, batch, transactions, provider);
    if Mentions(transactions, provider) {
      var m := LastIs(transactions, provider);
      assert Verdict(ledger, batch, transactions, provider) == StatusFor(ledger, batch, transactions[m]);
    }
  }

  /** The gap is real: a success followed by a failure for one provider notifies a provider
      whose rows end FAILED. */
  lemma RetractedSuccessIsStillNotified()
    ensures exists ledger: seq<Row>, transactions: seq<Transaction> ::
      && 1 in NotifiedBy(ledger, 5, transactions)
      && !MarkedSucceeded(Persisted(ledger, 5, transactions), 5, 1)
  {
    var row := Row(PayoutShare(9, 1, 7), PAYOUT, 1, Some(7), Some(5), 100, PENDING);
    var good := Transaction(1, 100, TxSucceeded);
    var bad := Transaction(1, 100, TxFailed);
    var ledger := [row];
    var transactions := [good, bad];
    assert Requested(ledger, 5, 1) == 100 by {
      TotalSingle(ledger, AmountIn(5, 1), 0);
    }
    assert PaidTo(ledger[0], 5, 1);
    assert Succeeds(ledger, 5, transactions[0]);
    assert 1 in NotifiedBy(ledger, 5, transactions);
    assert transactions[..1] == [good];
    assert Verdict(ledger, 5, transactions, 1) == FAILED;
    MarkedExactly(ledger, 5, transactions, 1);
  }

  /** No row of the batch that is dead (FAILED or CANCELLED) is brought back to life. */
  predicate KeepsDead(ledger: seq<Row>, batch: Id, transactions: seq<Transaction>) {
    forall i :: 0 <= i < |ledger| && InBatch(ledger[i], batch) && !LiveStatus(ledger[i].status)
      ==> !LiveStatus(Verdict(ledger, batch, transactions, ledger[i].provider))
  }

  predicate OneRowPerInvoice(ledger: seq<Row>, batch: Id) {
    forall i, j | 0 <= i < j < |ledger| && InBatch(ledger[i], batch) && InBatch(ledger[j], batch) ::
      ledger[i].invoice != ledger[j].invoice
  }

  /** A response raises no invoice's live debits exactly when it repeats every earlier failure:
      the condition under which the freed income may safely be offered again. */
  lemma DebitsRiseExactlyOnRevival(ledger: seq<Row>, batch: Id, transactions: seq<Transaction>)
    requires forall i :: 0 <= i < |ledger| && ledger[i].kind.PAYOUT? ==> ledger[i].amount > 0 && ledger[i].invoice.Some?
    requires OneRowPerInvoice(ledger, batch)
    ensures KeepsDead(ledger, batch, transactions) <==>
      forall invoice: Id :: Debit(Persisted(ledger, batch, transactions), invoice) <= Debit(ledger, invoice)
  {
    var after := Persisted(ledger, batch, transactions);
    if KeepsDead(ledger, batch, transactions) {
      forall invoice: Id ensures Debit(after, invoice) <= Debit(ledger, invoice) {
        TotalMonotone(after, ledger, DebitOf(invoice), DebitOf(invoice));
      }
    } else {
      var k :| 0 <= k < |ledger| && InBatch(ledger[k], batch) && !LiveStatus(ledger[k].status)
               && LiveStatus(Verdict(ledger, batch, transactions, ledger[k].provider));
      var invoice := ledger[k].invoice.value;
      TotalStrict(ledger, after, DebitOf(invoice), DebitOf(invoice), k);
      assert Debit(after, invoice) > Debit(ledger, invoice);
    }
  }
}
