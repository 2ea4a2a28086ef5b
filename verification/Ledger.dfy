/** The rows of the billing ledger and what an invoice has been credited and debited. */
module Ledger {
  import opened Sums

  // Row identifiers are UUID or reference strings in the program; they are only ever compared.
  type Id = nat

  datatype Kind = INCOME | PAYOUT | REFUND

  datatype Status = PENDING | PROCESSING | SUCCEEDED | FAILED | UNKNOWN | CANCELLED

  // The unique reference column: `INVOICE_PAYMENT:i` and `PAYOUT:run:provider:invoice`.
  datatype Reference =
    | InvoicePayment(paid: Id)
    | PayoutShare(run: Id, payee: Id, share: Id)
    | RefundOf(refunded: Id)

  datatype Row = Row(
    reference: Reference,
    kind: Kind,
    provider: Id,
    invoice: Option<Id>,
    batch: Option<Id>,
    amount: int,
    status: Status)

  datatype Invoice = Invoice(provider: Id, paid: bool)

  const MAX_SAFE_INTEGER: int := 9007199254740991

  predicate SafeInteger(n: int) {
    -MAX_SAFE_INTEGER <= n <= MAX_SAFE_INTEGER
  }

  /** A payout in one of these states may still move, or has moved, money. */
  predicate LiveStatus(s: Status) {
    s.PENDING? || s.PROCESSING? || s.SUCCEEDED? || s.UNKNOWN?
  }

  predicate IsCredit(r: Row) {
    r.kind.INCOME? && r.status.SUCCEEDED? && r.invoice.Some?
  }

  predicate IsLiveDebit(r: Row) {
    r.kind.PAYOUT? && LiveStatus(r.status)
  }

  predicate InBatch(r: Row, batch: Id) {
    r.kind.PAYOUT? && r.batch == Some(batch)
  }

  function CreditOf(invoice: Id): Row -> int {
    (r: Row) => if IsCredit(r) && r.invoice == Some(invoice) then r.amount else 0
  }

  function DebitOf(invoice: Id): Row -> int {
    (r: Row) => if IsLiveDebit(r) && r.invoice == Some(invoice) then r.amount else 0
  }

  /** What the ledger says was collected for an invoice. */
  function Credit(ledger: seq<Row>, invoice: Id): int {
    Total(ledger, CreditOf(invoice))
  }

  /** What the ledger says is paid out, or may still be paid out, against an invoice. */
  function Debit(ledger: seq<Row>, invoice: Id): int {
    Total(ledger, DebitOf(invoice))
  }

  /** The database's unique constraint on the reference column. */
  predicate UniqueReferences(ledger: seq<Row>) {
    forall i, j :: 0 <= i < j < |ledger| ==> ledger[i].reference != ledger[j].reference
  }

  predicate HasReference(ledger: seq<Row>, reference: Reference) {
    exists i :: 0 <= i < |ledger| && ledger[i].reference == reference
  }

  function IncomeRow(invoice: Id, provider: Id, amount: int): Row {
    Row(InvoicePayment(invoice), INCOME, provider, Some(invoice), None, amount, SUCCEEDED)
  }

  predicate IsIncomeOf(r: Row, invoice: Id) {
    r.reference == InvoicePayment(invoice)
  }

  /** The upsert of the one income row an invoice has. */
  function UpsertIncome(ledger: seq<Row>, invoice: Id, provider: Id, amount: int): seq<Row> {
    if HasReference(ledger, InvoicePayment(invoice)) then
      seq(|ledger|, i requires 0 <= i < |ledger| =>
        if IsIncomeOf(ledger[i], invoice) then ledger[i].(amount := amount, status := SUCCEEDED) else ledger[i])
    else ledger + [IncomeRow(invoice, provider, amount)]
  }

  /** `updateMany`: every row matching the filter gets the status, every other row stays. */
  function UpdateStatus(ledger: seq<Row>, matching: Row -> bool, status: Status): (updated: seq<Row>)
    ensures |updated| == |ledger|
    ensures forall i :: 0 <= i < |ledger| ==>
      updated[i] == if matching(ledger[i]) then ledger[i].(status := status) else ledger[i]
  {
    seq(|ledger|, i requires 0 <= i < |ledger| =>
      if matching(ledger[i]) then ledger[i].(status := status) else ledger[i])
  }
}
