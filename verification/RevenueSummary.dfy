/** The provider's balance, computed from grouped sums, against the ledger invoice by invoice. */
module RevenueSummary {
  import opened Sums
  import opened Ledger
  import opened PayoutResults
  import opened PayoutJobs
  import opened Reservation
  import opened MoneyMachine
  import opened MoneySafety

  // One row of `GROUP BY type, status` with its sum.
  datatype GroupSum = GroupSum(kind: Kind, status: Status, total: int)

  datatype Summary = Summary(
    totalCollected: int,
    totalSent: int,
    totalRefunded: int,
    pendingPayout: int,
    availableBalance: int)

  function GroupAt(groups: seq<GroupSum>, kind: Kind, status: Status): (k: nat)
    ensures k <= |groups|
    ensures k < |groups| ==> groups[k].kind == kind && groups[k].status == status
    ensures forall i :: 0 <= i < k ==> groups[i].kind != kind || groups[i].status != status
  {
    IndexWhere(groups, (g: GroupSum) => g.kind == kind && g.status == status)
  }

  function GroupRows(rows: seq<Row>): seq<GroupSum> {
    if rows == [] then []
    else
      var r := rows[|rows| - 1];
      var groups := GroupRows(rows[..|rows| - 1]);
      var k := GroupAt(groups, r.kind, r.status);
      if k < |groups| then groups[k := groups[k].(total := groups[k].total + r.amount)]
      else groups + [GroupSum(r.kind, r.status, r.amount)]
  }

  function RowsOf(ledger: seq<Row>, provider: Id): seq<Row> {
    Filter(ledger, (r: Row) => r.provider == provider)
  }

  /** `sum(type, statuses)`: filter the groups, then add them up. */
  function SumGroups(groups: seq<GroupSum>, kind: Kind, statuses: set<Status>): int {
    Total(Filter(groups, (g: GroupSum) => g.kind == kind && g.status in statuses), (g: GroupSum) => g.total)
  }

  function GetRevenueSummary(ledger: seq<Row>, provider: Id): Summary {
    var totals := GroupRows(RowsOf(ledger, provider));
    var collected := SumGroups(totals, INCOME, {SUCCEEDED});
    var sent := SumGroups(totals, PAYOUT, {SUCCEEDED});
    var refunded := SumGroups(totals, REFUND, {SUCCEEDED});
    var reserved := SumGroups(totals, PAYOUT, {PENDING, PROCESSING, UNKNOWN});
    Summary(collected, sent, refunded, reserved, collected - sent - refunded - reserved)
  }

  // ---- Groups against rows --------------------------------------------------

  function GroupWeight(kind: Kind, statuses: set<Status>): GroupSum -> int {
    (g: GroupSum) => if g.kind == kind && g.status in statuses then g.total else 0
  }

  function RowWeight(kind: Kind, statuses: set<Status>): Row -> int {
    (r: Row) => if r.kind == kind && r.status in statuses then r.amount else 0
  }

  lemma {:induction false} GroupingKeepsTotals(rows: seq<Row>, kind: Kind, statuses: set<Status>)
    ensures Total(GroupRows(rows), GroupWeight(kind, statuses)) == Total(rows, RowWeight(kind, statuses))
  {
    if rows != [] {
      var n := |rows| - 1;
      var r := rows[n];
      assert rows == rows[..n] + [r];
      GroupingKeepsTotals(rows[..n], kind, statuses);
      TotalSnoc(rows[..n], r, RowWeight(kind, statuses));
      var groups := GroupRows(rows[..n]);
      var k := GroupAt(groups, r.kind, r.status);
      if k < |groups| {
        var g := groups[k].(total := groups[k].total + r.amount);
        TotalSplit(groups, k, GroupWeight(kind, statuses));
        TotalSplit(groups[k := g], k, GroupWeight(kind, statuses));
      } else {
        TotalSnoc(groups, GroupSum(r.kind, r.status, r.amount), GroupWeight(kind, statuses));
      }
    }
  }

  function OwnWeight(provider: Id, kind: Kind, statuses: set<Status>): Row -> int {
    (r: Row) => if r.provider == provider && r.kind == kind && r.status in statuses then r.amount else 0
  }

  lemma SumGroupsIsSum(ledger: seq<Row>, provider: Id, kind: Kind, statuses: set<Status>)
    ensures SumGroups(GroupRows(RowsOf(ledger, provider)), kind, statuses)
      == Total(ledger, OwnWeight(provider, kind, statuses))
  {
    var rows := RowsOf(ledger, provider);
    TotalFilter(GroupRows(rows), (g: GroupSum) => g.kind == kind && g.status in statuses, (g: GroupSum) => g.total,
                GroupWeight(kind, statuses));
    GroupingKeepsTotals(rows, kind, statuses);
    TotalFilter(ledger, (r: Row) => r.provider == provider, RowWeight(kind, statuses),
                OwnWeight(provider, kind, statuses));
  }

  /** What one ledger row does to its provider's balance. */
  function BalanceWeight(provider: Id): Row -> int {
    (r: Row) =>
      if r.provider != provider then 0
      else if r.kind.INCOME? && r.status.SUCCEEDED? then r.amount
      else if IsLiveDebit(r) then -r.amount
      else if r.kind.REFUND? && r.status.SUCCEEDED? then -r.amount
      else 0
  }

  function RefundWeight(provider: Id): Row -> int {
    OwnWeight(provider, REFUND, {SUCCEEDED})
  }

  /** The grouped balance is the sum of what each row does to it. */
  lemma BalanceIsLedgerSum(ledger: seq<Row>, provider: Id)
    ensures GetRevenueSummary(ledger, provider).availableBalance == Total(ledger, BalanceWeight(provider))
  {
    SumGroupsIsSum(ledger, provider, INCOME, {SUCCEEDED});
    SumGroupsIsSum(ledger, provider, PAYOUT, {SUCCEEDED});
    SumGroupsIsSum(ledger, provider, REFUND, {SUCCEEDED});
    SumGroupsIsSum(ledger, provider, PAYOUT, {PENDING, PROCESSING, UNKNOWN});
    BalanceParts(ledger, provider);
  }

  lemma {:induction false} BalanceParts(ledger: seq<Row>, provider: Id)
    ensures Total(ledger, BalanceWeight(provider)) ==
      Total(ledger, OwnWeight(provider, INCOME, {SUCCEEDED}))
      - Total(ledger, OwnWeight(provider, PAYOUT, {SUCCEEDED}))
      - Total(ledger, OwnWeight(provider, REFUND, {SUCCEEDED}))
      - Total(ledger, OwnWeight(provider, PAYOUT, {PENDING, PROCESSING, UNKNOWN}))
  {
    if ledger != [] {
      BalanceParts(ledger[1..], provider);
    }
  }

  // ---- Rows against invoices ------------------------------------------------

  /** Every row but a refund belongs to an invoice, under that invoice's provider. */
  predicate RowAgrees(invoices: map<Id, Invoice>, r: Row) {
    || r.kind.REFUND?
    || (r.invoice.Some? && r.invoice.value in invoices && invoices[r.invoice.value].provider == r.provider)
  }

  predicate ProvidersAgree(ledger: seq<Row>, invoices: map<Id, Invoice>) {
    forall i :: 0 <= i < |ledger| ==> RowAgrees(invoices, ledger[i])
  }

  /** `ids` lists the provider's invoices, each once. */
  ghost predicate ListsInvoices(ids: seq<Id>, invoices: map<Id, Invoice>, provider: Id) {
    && Distinct(ids)
    && forall x :: x in ids <==> x in invoices && invoices[x].provider == provider
  }

  /** What is left on an invoice: its credit less its live debits. */
  function Left(ledger: seq<Row>): Id -> int {
    (x: Id) => Credit(ledger, x) - Debit(ledger, x)
  }

  function LeftOfRow(r: Row): Id -> int {
    (x: Id) =>
      if r.invoice != Some(x) then 0
      else (if IsCredit(r) then r.amount else 0) - (if IsLiveDebit(r) then r.amount else 0)
  }

  lemma {:induction false} RowLeavesOnce(ids: seq<Id>, invoices: map<Id, Invoice>, provider: Id, r: Row)
    requires ListsInvoices(ids, invoices, provider) && RowAgrees(invoices, r)
    ensures Total(ids, LeftOfRow(r)) == BalanceWeight(provider)(r) + RefundWeight(provider)(r)
  {
    if !r.kind.REFUND? && r.provider == provider {
      assert r.invoice.value in ids;
      var k :| 0 <= k < |ids| && ids[k] == r.invoice.value;
      TotalSingle(ids, LeftOfRow(r), k);
    } else {
      forall i | 0 <= i < |ids| ensures LeftOfRow(r)(ids[i]) == 0 {
        assert ids[i] in ids;
      }
      TotalZero(ids, LeftOfRow(r));
    }
  }

  /** The provider's balance is what is left on its invoices, less what was refunded. */
  lemma {:induction false} BalanceIsPerInvoice(
    ledger: seq<Row>, invoices: map<Id, Invoice>, provider: Id, ids: seq<Id>)
    requires ProvidersAgree(ledger, invoices) && ListsInvoices(ids, invoices, provider)
    ensures Total(ledger, BalanceWeight(provider)) == Total(ids, Left(ledger)) - Total(ledger, RefundWeight(provider))
  {
    if ledger == [] {
      TotalZero(ids, Left(ledger));
    } else {
      BalanceIsPerInvoice(ledger[1..], invoices, provider, ids);
      RowLeavesOnce(ids, invoices, provider, ledger[0]);
      TotalPlus(ids, LeftOfRow(ledger[0]), Left(ledger[1..]), Left(ledger));
    }
  }

  function OfferTo(provider: Id): EligibleInvoice -> int {
    (e: EligibleInvoice) => if e.provider == provider then e.amount else 0
  }

  function OfferedOn(offers: seq<EligibleInvoice>): Id -> int {
    (x: Id) => Total(offers, OfferFor(x))
  }

  function OfferedOnOne(e: EligibleInvoice): Id -> int {
    (x: Id) => OfferFor(x)(e)
  }

  lemma {:induction false} OffersPerInvoice(
    offers: seq<EligibleInvoice>, invoices: map<Id, Invoice>, provider: Id, ids: seq<Id>)
    requires ListsInvoices(ids, invoices, provider)
    requires forall e :: e in offers ==> e.invoice in invoices && e.provider == invoices[e.invoice].provider
    ensures Total(offers, OfferTo(provider)) == Total(ids, OfferedOn(offers))
  {
    if offers == [] {
      TotalZero(ids, OfferedOn(offers));
    } else {
      var e := offers[0];
      OffersPerInvoice(offers[1..], invoices, provider, ids);
      TotalPlus(ids, OfferedOnOne(e), OfferedOn(offers[1..]), OfferedOn(offers));
      assert e in offers;
      if e.provider == provider {
        assert e.invoice in ids;
        var k :| 0 <= k < |ids| && ids[k] == e.invoice;
        TotalSingle(ids, OfferedOnOne(e), k);
      } else {
        forall i | 0 <= i < |ids| ensures OfferedOnOne(e)(ids[i]) == 0 {
          assert ids[i] in ids;
        }
        TotalZero(ids, OfferedOnOne(e));
      }
    }
  }

  // ---- The balance in every reachable state ---------------------------------

  predicate LinesMatch(invoices: map<Id, Invoice>, q: PayoutRequest) {
    var lines := Lines(q.allocations);
    forall i :: 0 <= i < |lines| ==> LineMatches(invoices, lines[i])
  }

  ghost predicate Attributed(w: World) {
    && ProvidersAgree(w.ledger, w.invoices)
    && forall q :: q in w.pending ==> LinesMatch(w.invoices, q)
  }

  predicate OfferMatches(invoices: map<Id, Invoice>, provider: Id, e: EligibleInvoice) {
    e.provider == provider && e.invoice in invoices && invoices[e.invoice].provider == provider
  }

  predicate GroupMatches(invoices: map<Id, Invoice>, g: Group) {
    && DistinctInvoices(g.invoices)
    && forall i :: 0 <= i < |g.invoices| ==> OfferMatches(invoices, g.provider, g.invoices[i])
  }

  predicate LineMatches(invoices: map<Id, Invoice>, l: Line) {
    l.invoice in invoices && invoices[l.invoice].provider == l.provider
  }

  lemma GroupLinesMatch(g: Group, invoices: map<Id, Invoice>)
    requires GroupMatches(invoices, g)
    ensures forall l :: l in LinesOf(AllocationFor(g)) ==> LineMatches(invoices, l)
  {
    PairsTotal(g.invoices);
    FromEntriesIdentity(Pairs(g.invoices));
    var lines := LinesOf(AllocationFor(g));
    forall l | l in lines ensures LineMatches(invoices, l) {
      var i :| 0 <= i < |lines| && lines[i] == l;
      assert OfferMatches(invoices, g.provider, g.invoices[i]);
    }
  }

  lemma {:induction false} BuiltLinesMatch(profiles: map<Id, Profile>, groups: seq<Group>, invoices: map<Id, Invoice>)
    requires forall k :: 0 <= k < |groups| ==> GroupMatches(invoices, groups[k])
    ensures forall l :: l in Lines(AllocationsFor(Chosen(profiles, groups))) ==> LineMatches(invoices, l)
  {
    if groups != [] {
      var n := |groups| - 1;
      BuiltLinesMatch(profiles, groups[..n], invoices);
      GroupLinesMatch(groups[n], invoices);
      var before := Chosen(profiles, groups[..n]);
      if Payable(profiles, groups[n]) {
        assert AllocationsFor(before + [groups[n]])[..|before|] == AllocationsFor(before);
      }
    }
  }

  lemma ScheduledLinesMatch(w: World, e: Event)
    requires LedgerShape(w) && e.Schedule?
    ensures LinesMatch(w.invoices, Scheduled(w, e))
  {
    var offers := Eligible(w.ledger, w.invoices);
    var groups := GroupByProvider(offers);
    OffersOfInv(w);
    OffersComeFromRows(w.ledger, w.invoices, w.ledger);
    GroupingPartitions(offers);
    forall k | 0 <= k < |groups| ensures GroupMatches(w.invoices, groups[k]) {
      FilterDistinct(offers, PaidToProvider(groups[k].provider));
      forall i | 0 <= i < |groups[k].invoices|
        ensures OfferMatches(w.invoices, groups[k].provider, groups[k].invoices[i])
      {
        FilterMember(offers, PaidToProvider(groups[k].provider), groups[k].invoices[i]);
      }
    }
    BuiltLinesMatch(e.profiles, groups, w.invoices);
    var lines := Lines(Scheduled(w, e).allocations);
    assert forall i :: 0 <= i < |lines| ==> lines[i] in lines;
  }

  lemma StepKeepsAttribution(w: World, e: Event)
    requires Inv(w) && Attributed(w) && Enabled(w, e)
    ensures Attributed(Apply(w, e))
  {
    var after := Apply(w, e);
    match e
    case Settle(invoice, amount) =>
      forall q | q in after.pending ensures LinesMatch(after.invoices, q) {
        assert LinesMatch(w.invoices, q);
      }
      forall i | 0 <= i < |w.ledger| ensures RowAgrees(after.invoices, after.ledger[i]) {
        assert RowAgrees(w.invoices, w.ledger[i]);
      }
    case Schedule(_, _, _) => ScheduledLinesMatch(w, e);
    case Reserve(q) => ReserveKeepsAttribution(w, q);
    case Create(_) =>
    case Persist(q, transactions) =>
      forall i | 0 <= i < |w.ledger| ensures RowAgrees(after.invoices, after.ledger[i]) {
        assert RowAgrees(w.invoices, w.ledger[i]);
      }
    case MarkUnknown(_) =>
      forall i | 0 <= i < |w.ledger| ensures RowAgrees(after.invoices, after.ledger[i]) {
        assert RowAgrees(w.invoices, w.ledger[i]);
      }
    case PayOsTransfers(_, _) =>
    case PayOsRefuses(_, _) =>
  }

  lemma RowsAgree(invoices: map<Id, Invoice>, ledger: seq<Row>, q: PayoutRequest)
    requires ProvidersAgree(ledger, invoices) && LinesMatch(invoices, q)
    ensures ProvidersAgree(ledger + RowsFor(q), invoices)
  {
    var lines := Lines(q.allocations);
    forall i | 0 <= i < |lines| ensures RowAgrees(invoices, RowsFor(q)[i]) {
      assert LineMatches(invoices, lines[i]);
    }
  }

  lemma ReserveKeepsAttribution(w: World, q: PayoutRequest)
    requires LedgerShape(w) && JobsShape(w) && Skeleton(w.ledger) == AllRows(w.reserved)
    requires Attributed(w) && (q in w.pending || q in w.reserved)
    ensures Attributed(Apply(w, Reserve(q)))
  {
    if q in w.reserved {
      ReservedIsNotPending(w, q);
      ReservedAlready(w, q);
      WithoutAbsent(w.pending, q);
    } else {
      var k := WithoutSplits(w.pending, q);
      assert q in w.pending + w.reserved;
      FreshReservation(w, q);
      RowsAgree(w.invoices, w.ledger, q);
    }
  }

  lemma {:induction false} TraceKeepsAttribution(states: seq<World>, events: seq<Event>, k: nat)
    requires Trace(states, events) && Inv(states[0]) && Attributed(states[0]) && k <= |events|
    ensures Attributed(states[k])
  {
    if k > 0 {
      TraceKeepsAttribution(states, events, k - 1);
      TraceKeeps(states, events, k - 1);
      StepKeepsAttribution(states[k - 1], events[k - 1]);
    }
  }

  /** In every state of every run, the balance shown to a provider is what is left on its invoices; it is
      never negative, and never less than the next payout run would offer the provider. */
  lemma BalanceCoversOffers(start: map<Id, Invoice>, states: seq<World>, events: seq<Event>, k: nat,
                            provider: Id, ids: seq<Id>)
    requires Trace(states, events) && states[0] == Start(start) && k <= |events|
    requires ListsInvoices(ids, states[k].invoices, provider)
    ensures var balance := GetRevenueSummary(states[k].ledger, provider).availableBalance;
      && balance == Total(ids, Left(states[k].ledger))
      && 0 <= balance
      && Total(Eligible(states[k].ledger, states[k].invoices), OfferTo(provider)) <= balance
  {
    StartIsFine(start);
    TraceKeeps(states, events, k);
    TraceKeepsAttribution(states, events, k);
    BalanceOfInv(states[k], provider, ids);
  }

  lemma BalanceOfInv(w: World, provider: Id, ids: seq<Id>)
    requires Inv(w) && Attributed(w) && ListsInvoices(ids, w.invoices, provider)
    ensures GetRevenueSummary(w.ledger, provider).availableBalance == Total(ids, Left(w.ledger))
    ensures 0 <= Total(ids, Left(w.ledger))
    ensures Total(Eligible(w.ledger, w.invoices), OfferTo(provider)) <= Total(ids, Left(w.ledger))
  {
    var offers := Eligible(w.ledger, w.invoices);
    BalanceIsLedgerSum(w.ledger, provider);
    BalanceIsPerInvoice(w.ledger, w.invoices, provider, ids);
    forall i | 0 <= i < |w.ledger| ensures RefundWeight(provider)(w.ledger[i]) == 0 {
      assert RowShape(w.invoices, w.ledger[i]);
    }
    TotalZero(w.ledger, RefundWeight(provider));
    OffersOfInv(w);
    OffersComeFromRows(w.ledger, w.invoices, w.ledger);
    OffersPerInvoice(offers, w.invoices, provider, ids);
    forall i | 0 <= i < |ids|
      ensures 0 <= Left(w.ledger)(ids[i]) && OfferedOn(offers)(ids[i]) <= Left(w.ledger)(ids[i])
    {
      InvSolvent(w, ids[i]);
      OffersCovered(w.ledger, w.invoices, w.ledger, ids[i]);
    }
    TotalNonNegative(ids, Left(w.ledger));
    TotalMonotone(ids, ids, OfferedOn(offers), Left(w.ledger));
  }

  // ---- What one payout does to the balance ----------------------------------

  /** Reserving a job lowers each payee's balance by exactly the amount it is about to be paid. */
  lemma ReservationLowersBalance(ledger: seq<Row>, q: PayoutRequest, k: nat)
    requires SoundRequest(q) && FreshRun(ledger, q) && k < |q.items|
    ensures GetRevenueSummary(Reserved(ledger, q), q.items[k].provider).availableBalance
      == GetRevenueSummary(ledger, q.items[k].provider).availableBalance - q.items[k].amount
  {
    var provider := q.items[k].provider;
    var lines := Lines(q.allocations);
    BalanceIsLedgerSum(ledger, provider);
    BalanceIsLedgerSum(Reserved(ledger, q), provider);
    FreshLinesMissing(ledger, q);
    var rows := Missing(ledger, q, lines);
    TotalAppend(ledger, rows, BalanceWeight(provider));
    forall i | 0 <= i < |rows| ensures BalanceWeight(provider)(rows[i]) + LineTo(provider)(lines[i]) == 0 {
    }
    OppositeTotals(rows, lines, BalanceWeight(provider), LineTo(provider));
    assert ItemAllocated(q, q.items[k]);
    LinesToProvider(q.allocations, AllocationIndex(q.allocations, provider));
  }

  lemma {:induction false} OppositeTotals<S, T>(a: seq<S>, b: seq<T>, v: S -> int, w: T -> int)
    requires |a| == |b|
    requires forall i :: 0 <= i < |a| ==> v(a[i]) + w(b[i]) == 0
    ensures Total(a, v) == -Total(b, w)
  {
    if a != [] {
      OppositeTotals(a[1..], b[1..], v, w);
    }
  }

  /** A result for a live payout leaves the payee's balance as it was, unless it is a failure, a reversal or
      a cancellation: then it gives back exactly what the batch had reserved. */
  lemma ResultRestoresExactly(ledger: seq<Row>, batch: Id, transactions: seq<Transaction>, provider: Id)
    requires forall i :: 0 <= i < |ledger| && InBatch(ledger[i], batch) ==> LiveStatus(ledger[i].status)
    ensures GetRevenueSummary(Persisted(ledger, batch, transactions), provider).availableBalance
      == GetRevenueSummary(ledger, provider).availableBalance
         + (if LiveStatus(Verdict(ledger, batch, transactions, provider)) then 0
            else Requested(ledger, batch, provider))
  {
    var after := Persisted(ledger, batch, transactions);
    BalanceIsLedgerSum(ledger, provider);
    BalanceIsLedgerSum(after, provider);
    var u := BalanceWeight(provider);
    if LiveStatus(Verdict(ledger, batch, transactions, provider)) {
      TotalCongruent(after, ledger, u, u);
    } else {
      var v := AmountIn(batch, provider);
      ShiftedTotals(after, ledger, u, v);
    }
  }

  lemma {:induction false} ShiftedTotals(a: seq<Row>, b: seq<Row>, u: Row -> int, v: Row -> int)
    requires |a| == |b|
    requires forall i :: 0 <= i < |a| ==> u(a[i]) == u(b[i]) + v(b[i])
    ensures Total(a, u) == Total(b, u) + Total(b, v)
  {
    if a != [] {
      ShiftedTotals(a[1..], b[1..], u, v);
    }
  }
}
