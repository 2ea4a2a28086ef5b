/** The payout engine against PayOS as a state machine: its steps, and what is to be invariant.

    The machine is as permissive as retries, crashes, recoveries and several workers can make it:
    a reservation, a creation or a result may be repeated at any time and in any order the code's own
    sequencing allows. What PayOS has actually done is part of the state, not only what was recorded. */
module MoneyMachine {
  import opened Sums
  import opened Ledger
  import opened PayoutResults
  import opened PayoutJobs
  import opened Reservation

  // What PayOS has done for one provider of one run.
  datatype Transfer = Transfer(run: Id, provider: Id)

  datatype World = World(
    ledger: seq<Row>,
    invoices: map<Id, Invoice>,
    pending: seq<PayoutRequest>,    // queued jobs whose reservation has not committed
    reserved: seq<PayoutRequest>,   // jobs whose reservation has committed, oldest first
    created: set<Id>,               // idempotency keys PayOS holds a batch for
    transferred: set<Transfer>,     // PayOS has moved this money
    refused: set<Transfer>)         // PayOS has failed, reversed or cancelled this, for good

  datatype Event =
    | Settle(invoice: Id, amount: int)
    | Schedule(profiles: map<Id, Profile>, batch: Id, run: Id)
    | Reserve(request: PayoutRequest)
    | Create(request: PayoutRequest)
    | Persist(request: PayoutRequest, transactions: seq<Transaction>)
    | MarkUnknown(batch: Id)
    | PayOsTransfers(request: PayoutRequest, provider: Id)
    | PayOsRefuses(request: PayoutRequest, provider: Id)

  // ---- The steps ------------------------------------------------------------

  function Scheduled(w: World, e: Event): PayoutRequest
    requires e.Schedule?
  {
    BuildRequest(e.profiles, GroupByProvider(Eligible(w.ledger, w.invoices)), e.batch, e.run)
  }

  predicate Undecided(batch: Id, r: Row) {
    InBatch(r, batch) && (r.status.PENDING? || r.status.PROCESSING?)
  }

  function Without(requests: seq<PayoutRequest>, request: PayoutRequest): seq<PayoutRequest> {
    if requests == [] then []
    else if requests[0] == request then requests[1..]
    else [requests[0]] + Without(requests[1..], request)
  }

  function Apply(w: World, e: Event): World {
    match e
    case Settle(invoice, amount) =>
      if invoice !in w.invoices then w
      else w.(ledger := UpsertIncome(w.ledger, invoice, w.invoices[invoice].provider, amount),
              invoices := w.invoices[invoice := w.invoices[invoice].(paid := true)])
    case Schedule(_, _, _) => w.(pending := w.pending + [Scheduled(w, e)])
    case Reserve(request) =>
      w.(ledger := Reserved(w.ledger, request),
         pending := Without(w.pending, request),
         reserved := if request in w.reserved then w.reserved else w.reserved + [request])
    case Create(request) => w.(created := w.created + {request.idempotencyKey})
    case Persist(request, transactions) =>
      w.(ledger := Persisted(w.ledger, request.batch, transactions))
    case MarkUnknown(batch) => w.(ledger := UpdateStatus(w.ledger, r => Undecided(batch, r), UNKNOWN))
    case PayOsTransfers(request, provider) => w.(transferred := w.transferred + {Transfer(request.run, provider)})
    case PayOsRefuses(request, provider) =>
      w.(transferred := w.transferred - {Transfer(request.run, provider)},
         refused := w.refused + {Transfer(request.run, provider)})
  }

  /** PayOS reports truthfully: a failure it reports has happened, and a failure it has reported stays
      in every later response with the amount asked for. */
  predicate Honest(w: World, request: PayoutRequest, transactions: seq<Transaction>) {
    && KeepsDead(w.ledger, request.batch, transactions)
    && forall i :: 0 <= i < |w.ledger| && InBatch(w.ledger[i], request.batch)
          && !LiveStatus(Verdict(w.ledger, request.batch, transactions, w.ledger[i].provider))
          ==> Transfer(request.run, w.ledger[i].provider) in w.refused
  }

  predicate Unused(w: World, batch: Id, run: Id) {
    forall q :: q in w.pending + w.reserved ==> q.run != run && q.batch != batch
  }

  /** No queued job that is still unreserved takes from an invoice this run would allocate. */
  ghost predicate NoUnreservedClaim(w: World, request: PayoutRequest) {
    forall invoice: Id :: Total(Lines(request.allocations), LineFor(invoice)) > 0 ==> Promised(w, invoice) == 0
  }

  ghost predicate Enabled(w: World, e: Event) {
    match e
    case Settle(invoice, amount) => invoice in w.invoices && amount >= Credit(w.ledger, invoice)
    case Schedule(_, batch, run) => Unused(w, batch, run) && NoUnreservedClaim(w, Scheduled(w, e))
    case Reserve(request) => request in w.pending || request in w.reserved
    case Create(request) => request in w.reserved
    case Persist(request, transactions) =>
      request in w.reserved && request.idempotencyKey in w.created && Honest(w, request, transactions)
    case MarkUnknown(batch) => true
    case PayOsTransfers(request, provider) =>
      request in w.reserved && request.idempotencyKey in w.created && Transfer(request.run, provider) !in w.refused
    case PayOsRefuses(request, provider) => request in w.reserved && request.idempotencyKey in w.created
  }

  // ---- Runs -----------------------------------------------------------------

  ghost predicate Runs(w: World, events: seq<Event>)
    decreases |events|
  {
    events == [] || (Enabled(w, events[0]) && Runs(Apply(w, events[0]), events[1..]))
  }

  function After(w: World, events: seq<Event>): World
    decreases |events|
  {
    if events == [] then w else After(Apply(w, events[0]), events[1..])
  }

  function Start(invoices: map<Id, Invoice>): World {
    World([], invoices, [], [], {}, {}, {})
  }

  /** The states a run passes through, one more than its events. */
  ghost predicate Trace(states: seq<World>, events: seq<Event>) {
    && |states| == |events| + 1
    && forall i {:trigger events[i]} :: 0 <= i < |events| ==>
        Enabled(states[i], events[i]) && states[i + 1] == Apply(states[i], events[i])
  }

  // ---- What is being claimed ------------------------------------------------

  function LinesFor(invoice: Id): PayoutRequest -> int {
    (q: PayoutRequest) => Total(Lines(q.allocations), LineFor(invoice))
  }

  /** What queued but unreserved jobs will take from an invoice. */
  function Promised(w: World, invoice: Id): int {
    Total(w.pending, LinesFor(invoice))
  }

  function PaidLine(run: Id, transferred: set<Transfer>, invoice: Id): Line -> int {
    (l: Line) => if l.invoice == invoice && Transfer(run, l.provider) in transferred then l.amount else 0
  }

  function PaidBy(transferred: set<Transfer>, invoice: Id): PayoutRequest -> int {
    (q: PayoutRequest) => Total(Lines(q.allocations), PaidLine(q.run, transferred, invoice))
  }

  /** The money PayOS has actually moved on account of an invoice, over every job ever created. */
  function PaidOut(w: World, invoice: Id): int {
    Total(w.reserved, PaidBy(w.transferred, invoice))
  }

  predicate Covered(w: World, invoice: Id) {
    Debit(w.ledger, invoice) + Promised(w, invoice) <= Credit(w.ledger, invoice)
  }

  // ---- The invariant --------------------------------------------------------

  predicate IncomeShape(invoices: map<Id, Invoice>, r: Row) {
    && r.invoice.Some? && r.reference == InvoicePayment(r.invoice.value)
    && r.status.SUCCEEDED? && r.amount >= 0 && r.batch.None? && r.invoice.value in invoices
  }

  predicate PayoutShape(r: Row) {
    && r.invoice.Some? && r.batch.Some? && r.amount > 0
    && r.reference.PayoutShare? && r.reference.payee == r.provider && r.reference.share == r.invoice.value
  }

  predicate RowShape(invoices: map<Id, Invoice>, r: Row) {
    match r.kind
    case INCOME => IncomeShape(invoices, r)
    case PAYOUT => PayoutShape(r)
    case REFUND => false
  }

  predicate LedgerShape(w: World) {
    UniqueReferences(w.ledger) && forall i :: 0 <= i < |w.ledger| ==> RowShape(w.invoices, w.ledger[i])
  }

  predicate SoundRequest(q: PayoutRequest) {
    && WellFormed(q) && Allocated(q) && ItemsCoverAllocations(q) && q.idempotencyKey == q.run
    && forall i :: 0 <= i < |Lines(q.allocations)| ==> Lines(q.allocations)[i].amount > 0
  }

  predicate DistinctRuns(requests: seq<PayoutRequest>) {
    forall i, j :: 0 <= i < j < |requests| ==>
      requests[i].run != requests[j].run && requests[i].batch != requests[j].batch
  }

  predicate JobsShape(w: World) {
    && DistinctRuns(w.pending + w.reserved)
    && (forall q :: q in w.pending + w.reserved ==> SoundRequest(q))
    && (forall q :: q in w.pending ==> FreshRun(w.ledger, q))
  }

  function RowsFor(q: PayoutRequest): (rows: seq<Row>)
    ensures |rows| == |Lines(q.allocations)|
    ensures forall i :: 0 <= i < |rows| ==> rows[i] == RowFor(q, Lines(q.allocations)[i])
  {
    var lines := Lines(q.allocations);
    seq(|lines|, i requires 0 <= i < |lines| => RowFor(q, lines[i]))
  }

  function AllRows(requests: seq<PayoutRequest>): seq<Row> {
    if requests == [] then []
    else AllRows(requests[..|requests| - 1]) + RowsFor(requests[|requests| - 1])
  }

  /** The payout rows of the ledger with their statuses wiped. */
  function Skeleton(ledger: seq<Row>): seq<Row> {
    if ledger == [] then []
    else
      var r := ledger[|ledger| - 1];
      var before := Skeleton(ledger[..|ledger| - 1]);
      if r.kind.PAYOUT? then before + [r.(status := PENDING)] else before
  }

  predicate IsDeadDebit(r: Row) {
    r.kind.PAYOUT? && r.reference.PayoutShare? && !LiveStatus(r.status)
  }

  /** A dead row belongs to a payment PayOS has refused for good. */
  predicate DeadIsRefused(w: World) {
    forall i | 0 <= i < |w.ledger| && IsDeadDebit(w.ledger[i]) ::
      Transfer(w.ledger[i].reference.run, w.ledger[i].provider) in w.refused
  }

  ghost predicate Inv(w: World) {
    && LedgerShape(w)
    && JobsShape(w)
    && Skeleton(w.ledger) == AllRows(w.reserved)
    && DeadIsRefused(w)
    && w.transferred !! w.refused
    && forall invoice: Id :: Covered(w, invoice)
  }

  // ---- Skeletons ------------------------------------------------------------

  lemma {:induction false} SkeletonAppend(a: seq<Row>, b: seq<Row>)
    ensures Skeleton(a + b) == Skeleton(a) + Skeleton(b)
  {
    if b == [] {
      assert a + b == a;
    } else {
      assert (a + b)[..|a + b| - 1] == a + b[..|b| - 1];
      SkeletonAppend(a, b[..|b| - 1]);
    }
  }

  lemma {:induction false} SkeletonPending(rows: seq<Row>)
    requires forall i :: 0 <= i < |rows| ==> rows[i].kind.PAYOUT? && rows[i].status.PENDING?
    ensures Skeleton(rows) == rows
  {
    if rows != [] {
      SkeletonPending(rows[..|rows| - 1]);
    }
  }

  lemma {:induction false} SkeletonPointwise(a: seq<Row>, b: seq<Row>)
    requires |a| == |b|
    requires forall i :: 0 <= i < |a| ==> a[i].kind == b[i].kind
    requires forall i :: 0 <= i < |a| && a[i].kind.PAYOUT? ==> a[i] == b[i].(status := a[i].status)
    ensures Skeleton(a) == Skeleton(b)
  {
    if a != [] {
      SkeletonPointwise(a[..|a| - 1], b[..|b| - 1]);
    }
  }

  lemma {:induction false} SkeletonMember(ledger: seq<Row>, i: nat)
    requires i < |ledger| && ledger[i].kind.PAYOUT?
    ensures ledger[i].(status := PENDING) in Skeleton(ledger)
  {
    if i < |ledger| - 1 {
      SkeletonMember(ledger[..|ledger| - 1], i);
    }
  }

  lemma {:induction false} AllRowsMember(requests: seq<PayoutRequest>, r: Row)
    requires r in AllRows(requests)
    ensures exists q :: q in requests && r in RowsFor(q)
  {
    var n := |requests| - 1;
    if r in RowsFor(requests[n]) {
      assert requests[n] in requests;
    } else {
      AllRowsMember(requests[..n], r);
    }
  }

  lemma PayoutRowHasRequest(w: World, i: nat)
    requires Skeleton(w.ledger) == AllRows(w.reserved)
    requires i < |w.ledger| && w.ledger[i].kind.PAYOUT?
    ensures exists q :: q in w.reserved && w.ledger[i].(status := PENDING) in RowsFor(q)
  {
    SkeletonMember(w.ledger, i);
    AllRowsMember(w.reserved, w.ledger[i].(status := PENDING));
  }

  function PaidRow(transferred: set<Transfer>, invoice: Id): Row -> int {
    (r: Row) =>
      if r.kind.PAYOUT? && r.reference.PayoutShare? && r.invoice == Some(invoice)
         && Transfer(r.reference.run, r.provider) in transferred
      then r.amount else 0
  }

  lemma {:induction false} SkeletonTotal(ledger: seq<Row>, transferred: set<Transfer>, invoice: Id)
    ensures Total(Skeleton(ledger), PaidRow(transferred, invoice)) == Total(ledger, PaidRow(transferred, invoice))
  {
    if ledger != [] {
      var n := |ledger| - 1;
      var w := PaidRow(transferred, invoice);
      assert ledger == ledger[..n] + [ledger[n]];
      SkeletonTotal(ledger[..n], transferred, invoice);
      TotalSnoc(ledger[..n], ledger[n], w);
      TotalSnoc(Skeleton(ledger[..n]), ledger[n].(status := PENDING), w);
    }
  }

  lemma {:induction false} AllRowsTotal(requests: seq<PayoutRequest>, transferred: set<Transfer>, invoice: Id)
    ensures Total(AllRows(requests), PaidRow(transferred, invoice)) == Total(requests, PaidBy(transferred, invoice))
  {
    if requests != [] {
      var n := |requests| - 1;
      var q := requests[n];
      assert requests == requests[..n] + [q];
      AllRowsTotal(requests[..n], transferred, invoice);
      TotalSnoc(requests[..n], q, PaidBy(transferred, invoice));
      TotalAppend(AllRows(requests[..n]), RowsFor(q), PaidRow(transferred, invoice));
      TotalCongruent(RowsFor(q), Lines(q.allocations), PaidRow(transferred, invoice),
                     PaidLine(q.run, transferred, invoice));
    }
  }

  /** PayOS's own account of an invoice is a sum over the ledger: every transfer has its row. */
  lemma PaidOutIsOnRecord(w: World, invoice: Id)
    requires Skeleton(w.ledger) == AllRows(w.reserved)
    ensures PaidOut(w, invoice) == Total(w.ledger, PaidRow(w.transferred, invoice))
  {
    SkeletonTotal(w.ledger, w.transferred, invoice);
    AllRowsTotal(w.reserved, w.transferred, invoice);
  }
}
