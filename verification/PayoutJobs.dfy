/** From ledger rows to a payout job and back: eligibility, grouping, allocation, reservation. */
module PayoutJobs {
  import opened Sums
  import opened Ledger
  import opened PayoutResults

  datatype EligibleInvoice = EligibleInvoice(invoice: Id, provider: Id, amount: int)

  datatype Group = Group(provider: Id, invoices: seq<EligibleInvoice>)

  datatype Profile = Profile(bin: string, accountNumber: string)

  datatype Instruction = Instruction(provider: Id, amount: int, toBin: string, toAccountNumber: string)

  datatype Share = Share(invoice: Id, amount: int)

  // One entry of `invoiceAmounts`: a provider and its invoice amounts, in insertion order.
  datatype Allocation = Allocation(provider: Id, shares: seq<Share>)

  // The part of a PAYOUT job that is fixed when the job is built.
  datatype PayoutRequest = PayoutRequest(
    batch: Id,
    run: Id,
    idempotencyKey: Id,
    items: seq<Instruction>,
    invoiceMap: map<Id, seq<Id>>,
    allocations: seq<Allocation>)

  datatype Line = Line(provider: Id, invoice: Id, amount: int)

  // ---- Eligibility ----------------------------------------------------------

  predicate IsPaidCredit(invoices: map<Id, Invoice>, r: Row) {
    IsCredit(r) && r.invoice.value in invoices && invoices[r.invoice.value].paid
  }

  predicate Offered(ledger: seq<Row>, invoices: map<Id, Invoice>, r: Row) {
    && IsPaidCredit(invoices, r)
    && SafeInteger(r.amount - Debit(ledger, r.invoice.value))
    && r.amount - Debit(ledger, r.invoice.value) > 0
  }

  /** The offers made for the credits among `rows`: what is left of each after its live debits. */
  function Offers(ledger: seq<Row>, invoices: map<Id, Invoice>, rows: seq<Row>): seq<EligibleInvoice> {
    if rows == [] then []
    else
      var r := rows[|rows| - 1];
      var before := Offers(ledger, invoices, rows[..|rows| - 1]);
      if Offered(ledger, invoices, r)
      then before + [EligibleInvoice(r.invoice.value, invoices[r.invoice.value].provider,
                                     r.amount - Debit(ledger, r.invoice.value))]
      else before
  }

  function Eligible(ledger: seq<Row>, invoices: map<Id, Invoice>): seq<EligibleInvoice> {
    Offers(ledger, invoices, ledger)
  }

  /** One INCOME row per invoice, as the upsert on `INVOICE_PAYMENT:invoice` guarantees. */
  predicate OneCreditPerInvoice(ledger: seq<Row>) {
    forall i, j :: 0 <= i < j < |ledger| && IsCredit(ledger[i]) && IsCredit(ledger[j])
      ==> ledger[i].invoice != ledger[j].invoice
  }

  predicate DistinctInvoices(offers: seq<EligibleInvoice>) {
    forall i, j :: 0 <= i < j < |offers| ==> offers[i].invoice != offers[j].invoice
  }

  function OfferFor(invoice: Id): EligibleInvoice -> int {
    (e: EligibleInvoice) => if e.invoice == invoice then e.amount else 0
  }

  lemma {:induction false} OffersComeFromRows(ledger: seq<Row>, invoices: map<Id, Invoice>, rows: seq<Row>)
    ensures forall e :: e in Offers(ledger, invoices, rows) ==>
      exists i :: 0 <= i < |rows| && Offered(ledger, invoices, rows[i]) && rows[i].invoice == Some(e.invoice)
    ensures forall e :: e in Offers(ledger, invoices, rows) ==> e.amount > 0
    ensures forall e :: e in Offers(ledger, invoices, rows) ==>
      e.invoice in invoices && e.provider == invoices[e.invoice].provider
  {
    if rows != [] {
      OffersComeFromRows(ledger, invoices, rows[..|rows| - 1]);
    }
  }

  lemma {:induction false} OffersAreDistinct(ledger: seq<Row>, invoices: map<Id, Invoice>, rows: seq<Row>)
    requires OneCreditPerInvoice(rows)
    ensures DistinctInvoices(Offers(ledger, invoices, rows))
  {
    if rows != [] {
      OffersAreDistinct(ledger, invoices, rows[..|rows| - 1]);
      OffersComeFromRows(ledger, invoices, rows[..|rows| - 1]);
    }
  }

  lemma NothingOffered(ledger: seq<Row>, invoices: map<Id, Invoice>, rows: seq<Row>, invoice: Id)
    requires forall i :: 0 <= i < |rows| ==> !(IsCredit(rows[i]) && rows[i].invoice == Some(invoice))
    ensures Total(Offers(ledger, invoices, rows), OfferFor(invoice)) == 0
    ensures Total(rows, CreditOf(invoice)) == 0
  {
    var offers := Offers(ledger, invoices, rows);
    OffersComeFromRows(ledger, invoices, rows);
    forall i | 0 <= i < |offers| ensures OfferFor(invoice)(offers[i]) == 0 {
      assert offers[i] in offers;
    }
    TotalZero(offers, OfferFor(invoice));
    TotalZero(rows, CreditOf(invoice));
  }

  /** Nothing is offered beyond what the income of the invoice still covers. */
  lemma {:induction false} OffersCovered(ledger: seq<Row>, invoices: map<Id, Invoice>, rows: seq<Row>, invoice: Id)
    requires OneCreditPerInvoice(rows)
    requires Debit(ledger, invoice) <= Total(rows, CreditOf(invoice))
             || forall i :: 0 <= i < |rows| ==> CreditOf(invoice)(rows[i]) == 0
    ensures var offered := Total(Offers(ledger, invoices, rows), OfferFor(invoice));
      && 0 <= offered
      && (offered > 0 ==> offered == Total(rows, CreditOf(invoice)) - Debit(ledger, invoice))
  {
    if rows != [] {
      var n := |rows| - 1;
      var r := rows[n];
      assert rows == rows[..n] + [r];
      TotalSnoc(rows[..n], r, CreditOf(invoice));
      if IsCredit(r) && r.invoice == Some(invoice) {
        NothingOffered(ledger, invoices, rows[..n], invoice);
      } else {
        OffersCovered(ledger, invoices, rows[..n], invoice);
      }
      if Offered(ledger, invoices, r) {
        TotalSnoc(Offers(ledger, invoices, rows[..n]),
                  EligibleInvoice(r.invoice.value, invoices[r.invoice.value].provider,
                                  r.amount - Debit(ledger, r.invoice.value)), OfferFor(invoice));
      }
    }
  }

  // ---- Grouping -------------------------------------------------------------

  function GroupIndex(groups: seq<Group>, provider: Id): (k: nat)
    ensures k <= |groups|
    ensures k < |groups| ==> groups[k].provider == provider
    ensures forall i :: 0 <= i < k ==> groups[i].provider != provider
  {
    IndexWhere(groups, (g: Group) => g.provider == provider)
  }

  /** `Map.set` after `Map.get ?? []`: extend the provider's group, or open one at the end. */
  function AddTo(groups: seq<Group>, e: EligibleInvoice): seq<Group> {
    var k := GroupIndex(groups, e.provider);
    if k < |groups| then groups[k := groups[k].(invoices := groups[k].invoices + [e])]
    else groups + [Group(e.provider, [e])]
  }

  function GroupByProvider(offers: seq<EligibleInvoice>): seq<Group> {
    if offers == [] then []
    else AddTo(GroupByProvider(offers[..|offers| - 1]), offers[|offers| - 1])
  }

  function PaidToProvider(provider: Id): EligibleInvoice -> bool {
    (e: EligibleInvoice) => e.provider == provider
  }

  predicate DistinctGroups(groups: seq<Group>) {
    forall i, j :: 0 <= i < j < |groups| ==> groups[i].provider != groups[j].provider
  }

  /** The groups partition the offers: one group per provider, holding its offers in order. */
  predicate Partitions(groups: seq<Group>, offers: seq<EligibleInvoice>) {
    && DistinctGroups(groups)
    && (forall k :: 0 <= k < |groups| ==>
          groups[k].invoices == Filter(offers, PaidToProvider(groups[k].provider)) && groups[k].invoices != [])
    && (forall i :: 0 <= i < |offers| ==> GroupIndex(groups, offers[i].provider) < |groups|)
  }

  lemma AddToKeepsProviders(groups: seq<Group>, e: EligibleInvoice, provider: Id)
    ensures GroupIndex(AddTo(groups, e), provider) < |AddTo(groups, e)|
      <==> provider == e.provider || GroupIndex(groups, provider) < |groups|
  {
    var after := AddTo(groups, e);
    var k := GroupIndex(groups, e.provider);
    assert after[k].provider == e.provider;
    var g := GroupIndex(groups, provider);
    if g < |groups| {
      assert after[g].provider == provider;
    }
    var h := GroupIndex(after, provider);
    if h < |after| && h != k {
      assert groups[h].provider == provider;
    }
  }

  lemma NoGroupNoOffers(groups: seq<Group>, offers: seq<EligibleInvoice>, provider: Id)
    requires Partitions(groups, offers)
    requires GroupIndex(groups, provider) == |groups|
    ensures Filter(offers, PaidToProvider(provider)) == []
  {
    FilterNone(offers, PaidToProvider(provider));
  }

  lemma AddToPartitions(groups: seq<Group>, before: seq<EligibleInvoice>, e: EligibleInvoice)
    requires Partitions(groups, before)
    ensures Partitions(AddTo(groups, e), before + [e])
  {
    var offers := before + [e];
    var after := AddTo(groups, e);
    var k := GroupIndex(groups, e.provider);
    if k == |groups| {
      NoGroupNoOffers(groups, before, e.provider);
    }
    forall g | 0 <= g < |after|
      ensures after[g].invoices == Filter(offers, PaidToProvider(after[g].provider)) && after[g].invoices != []
    {
      FilterSnoc(before, e, PaidToProvider(after[g].provider));
      if g < |groups| && g != k {
        assert after[g] == groups[g];
      }
    }
    forall i | 0 <= i < |offers| ensures GroupIndex(after, offers[i].provider) < |after| {
      AddToKeepsProviders(groups, e, offers[i].provider);
    }
  }

  lemma {:induction false} GroupingPartitions(offers: seq<EligibleInvoice>)
    ensures Partitions(GroupByProvider(offers), offers)
  {
    if offers != [] {
      var n := |offers| - 1;
      GroupingPartitions(offers[..n]);
      AddToPartitions(GroupByProvider(offers[..n]), offers[..n], offers[n]);
      assert offers == offers[..n] + [offers[n]];
    }
  }

  function GroupTotal(w: EligibleInvoice -> int): Group -> int {
    (g: Group) => Total(g.invoices, w)
  }

  /** Grouping moves no money: any weight sums to the same over the groups as over the offers. */
  lemma {:induction false} GroupingConserves(offers: seq<EligibleInvoice>, w: EligibleInvoice -> int)
    ensures Total(GroupByProvider(offers), GroupTotal(w)) == Total(offers, w)
  {
    if offers != [] {
      var n := |offers| - 1;
      var e := offers[n];
      assert offers == offers[..n] + [e];
      GroupingConserves(offers[..n], w);
      TotalSnoc(offers[..n], e, w);
      var groups := GroupByProvider(offers[..n]);
      var k := GroupIndex(groups, e.provider);
      if k < |groups| {
        var g := groups[k].(invoices := groups[k].invoices + [e]);
        TotalSnoc(groups[k].invoices, e, w);
        TotalSplit(groups, k, GroupTotal(w));
        TotalSplit(groups[k := g], k, GroupTotal(w));
      } else {
        TotalSnoc(groups, Group(e.provider, [e]), GroupTotal(w));
        assert Total([e], w) == w(e);
      }
    }
  }

  // ---- Building the job -----------------------------------------------------

  function OfferAmount(): EligibleInvoice -> int {
    (e: EligibleInvoice) => e.amount
  }

  function ShareAmount(): Share -> int {
    (s: Share) => s.amount
  }

  function GroupAmount(g: Group): int {
    Total(g.invoices, OfferAmount())
  }

  predicate Payable(profiles: map<Id, Profile>, g: Group) {
    && g.provider in profiles
    && profiles[g.provider].bin != "" && profiles[g.provider].accountNumber != ""
    && SafeInteger(GroupAmount(g)) && GroupAmount(g) > 0
  }

  function InvoiceIds(invoices: seq<EligibleInvoice>): (ids: seq<Id>)
    ensures |ids| == |invoices|
    ensures forall i :: 0 <= i < |ids| ==> ids[i] == invoices[i].invoice
  {
    seq(|invoices|, i requires 0 <= i < |invoices| => invoices[i].invoice)
  }

  function Pairs(invoices: seq<EligibleInvoice>): (pairs: seq<Share>)
    ensures |pairs| == |invoices|
    ensures forall i :: 0 <= i < |pairs| ==> pairs[i] == Share(invoices[i].invoice, invoices[i].amount)
  {
    seq(|invoices|, i requires 0 <= i < |invoices| => Share(invoices[i].invoice, invoices[i].amount))
  }

  predicate DistinctKeys(shares: seq<Share>) {
    forall i, j :: 0 <= i < j < |shares| ==> shares[i].invoice != shares[j].invoice
  }

  function KeyIndex(shares: seq<Share>, invoice: Id): (k: nat)
    ensures k <= |shares|
    ensures k < |shares| ==> shares[k].invoice == invoice
    ensures forall i :: 0 <= i < k ==> shares[i].invoice != invoice
  {
    IndexWhere(shares, (s: Share) => s.invoice == invoice)
  }

  predicate HasKey(shares: seq<Share>, invoice: Id) {
    KeyIndex(shares, invoice) < |shares|
  }

  /** Setting a key of an object: a known key keeps its place, a new key goes last. */
  function Put(shares: seq<Share>, s: Share): seq<Share> {
    var k := KeyIndex(shares, s.invoice);
    if k < |shares| then shares[k := s] else shares + [s]
  }

  /** `Object.fromEntries`: later pairs overwrite earlier ones with the same key. */
  function FromEntries(pairs: seq<Share>): (shares: seq<Share>)
    ensures DistinctKeys(shares)
    ensures |shares| <= |pairs|
  {
    if pairs == [] then []
    else Put(FromEntries(pairs[..|pairs| - 1]), pairs[|pairs| - 1])
  }

  lemma PutKeys(shares: seq<Share>, s: Share, invoice: Id)
    ensures HasKey(Put(shares, s), invoice) <==> invoice == s.invoice || HasKey(shares, invoice)
  {
    var after := Put(shares, s);
    var k := KeyIndex(shares, s.invoice);
    assert after[k] == s;
    var j := KeyIndex(shares, invoice);
    if j < |shares| {
      assert after[j].invoice == invoice;
    }
    var h := KeyIndex(after, invoice);
    if h < |after| && h != k {
      assert shares[h].invoice == invoice;
    }
  }

  lemma {:induction false} FromEntriesKeys(pairs: seq<Share>, i: nat)
    requires i < |pairs|
    ensures HasKey(FromEntries(pairs), pairs[i].invoice)
  {
    var n := |pairs| - 1;
    PutKeys(FromEntries(pairs[..n]), pairs[n], pairs[i].invoice);
    if i < n {
      FromEntriesKeys(pairs[..n], i);
    }
  }

  lemma {:induction false} FromEntriesIdentity(pairs: seq<Share>)
    requires DistinctKeys(pairs)
    ensures FromEntries(pairs) == pairs
  {
    if pairs != [] {
      var n := |pairs| - 1;
      FromEntriesIdentity(pairs[..n]);
      assert pairs == pairs[..n] + [pairs[n]];
    }
  }

  /** An object keeps as many entries as there were pairs exactly when no key repeats. */
  lemma {:induction false} FromEntriesDistinct(pairs: seq<Share>)
    ensures |FromEntries(pairs)| == |pairs| <==> DistinctKeys(pairs)
  {
    if DistinctKeys(pairs) {
      FromEntriesIdentity(pairs);
    } else {
      var n := |pairs| - 1;
      if DistinctKeys(pairs[..n]) {
        var i :| 0 <= i < n && pairs[i].invoice == pairs[n].invoice;
        FromEntriesKeys(pairs[..n], i);
      } else {
        FromEntriesDistinct(pairs[..n]);
      }
    }
  }

  function ItemFor(profiles: map<Id, Profile>, g: Group): Instruction
    requires g.provider in profiles
  {
    Instruction(g.provider, GroupAmount(g), profiles[g.provider].bin, profiles[g.provider].accountNumber)
  }

  function AllocationFor(g: Group): Allocation {
    Allocation(g.provider, FromEntries(Pairs(g.invoices)))
  }

  /** The groups whose provider can be paid, in order. */
  function Chosen(profiles: map<Id, Profile>, groups: seq<Group>): (chosen: seq<Group>)
    ensures forall k :: 0 <= k < |chosen| ==> Payable(profiles, chosen[k])
    ensures forall g :: g in chosen ==> g in groups
  {
    if groups == [] then []
    else if Payable(profiles, groups[|groups| - 1])
    then Chosen(profiles, groups[..|groups| - 1]) + [groups[|groups| - 1]]
    else Chosen(profiles, groups[..|groups| - 1])
  }

  function InvoiceMap(chosen: seq<Group>): map<Id, seq<Id>> {
    if chosen == [] then map[]
    else InvoiceMap(chosen[..|chosen| - 1])[chosen[|chosen| - 1].provider := InvoiceIds(chosen[|chosen| - 1].invoices)]
  }

  function AllocationsFor(chosen: seq<Group>): (allocations: seq<Allocation>)
    ensures |allocations| == |chosen|
    ensures forall i :: 0 <= i < |chosen| ==> allocations[i].provider == chosen[i].provider
  {
    seq(|chosen|, i requires 0 <= i < |chosen| => AllocationFor(chosen[i]))
  }

  function ItemsFor(profiles: map<Id, Profile>, chosen: seq<Group>): (items: seq<Instruction>)
    requires forall k :: 0 <= k < |chosen| ==> chosen[k].provider in profiles
    ensures |items| == |chosen|
    ensures forall i :: 0 <= i < |chosen| ==> items[i] == ItemFor(profiles, chosen[i])
  {
    seq(|chosen|, i requires 0 <= i < |chosen| => ItemFor(profiles, chosen[i]))
  }

  /** The job a scheduled run queues for the groups it can pay. */
  function BuildRequest(profiles: map<Id, Profile>, groups: seq<Group>, batch: Id, run: Id): PayoutRequest {
    var chosen := Chosen(profiles, groups);
    assert forall k :: 0 <= k < |chosen| ==> Payable(profiles, chosen[k]);
    PayoutRequest(batch, run, run,
      ItemsFor(profiles, chosen),
      InvoiceMap(chosen),
      AllocationsFor(chosen))
  }

  function Extended(profiles: map<Id, Profile>, q: PayoutRequest, g: Group): PayoutRequest
    requires g.provider in profiles
  {
    q.(items := q.items + [ItemFor(profiles, g)],
       invoiceMap := q.invoiceMap[g.provider := InvoiceIds(g.invoices)],
       allocations := q.allocations + [AllocationFor(g)])
  }

  lemma ChosenSnoc(profiles: map<Id, Profile>, groups: seq<Group>, g: Group)
    ensures Chosen(profiles, groups + [g])
      == if Payable(profiles, g) then Chosen(profiles, groups) + [g] else Chosen(profiles, groups)
  {
    assert (groups + [g])[..|groups|] == groups;
  }

  lemma ItemsSnoc(profiles: map<Id, Profile>, chosen: seq<Group>, g: Group)
    requires forall k :: 0 <= k < |chosen| ==> chosen[k].provider in profiles
    requires g.provider in profiles
    ensures ItemsFor(profiles, chosen + [g]) == ItemsFor(profiles, chosen) + [ItemFor(profiles, g)]
  {
  }

  lemma AllocationsSnoc(chosen: seq<Group>, g: Group)
    ensures AllocationsFor(chosen + [g]) == AllocationsFor(chosen) + [AllocationFor(g)]
  {
  }

  /** The request is built group by group. */
  lemma BuildStep(profiles: map<Id, Profile>, groups: seq<Group>, g: Group, batch: Id, run: Id)
    ensures BuildRequest(profiles, groups + [g], batch, run)
      == if Payable(profiles, g) then Extended(profiles, BuildRequest(profiles, groups, batch, run), g)
         else BuildRequest(profiles, groups, batch, run)
  {
    ChosenSnoc(profiles, groups, g);
    if Payable(profiles, g) {
      var before := Chosen(profiles, groups);
      ItemsSnoc(profiles, before, g);
      AllocationsSnoc(before, g);
      assert (before + [g])[..|before|] == before;
    }
  }

  lemma {:induction false} ChosenDistinct(profiles: map<Id, Profile>, groups: seq<Group>)
    requires DistinctGroups(groups)
    ensures DistinctGroups(Chosen(profiles, groups))
  {
    if groups != [] {
      var n := |groups| - 1;
      ChosenDistinct(profiles, groups[..n]);
      assert forall g :: g in groups[..n] ==> g.provider != groups[n].provider;
    }
  }

  lemma {:induction false} InvoiceMapAt(chosen: seq<Group>, k: nat)
    requires DistinctGroups(chosen) && k < |chosen|
    ensures chosen[k].provider in InvoiceMap(chosen)
    ensures InvoiceMap(chosen)[chosen[k].provider] == InvoiceIds(chosen[k].invoices)
  {
    if k < |chosen| - 1 {
      InvoiceMapAt(chosen[..|chosen| - 1], k);
    }
  }

  // ---- Validation -----------------------------------------------------------

  function AllocationIndex(allocations: seq<Allocation>, provider: Id): (k: nat)
    ensures k <= |allocations|
    ensures k < |allocations| ==> allocations[k].provider == provider
    ensures forall i :: 0 <= i < k ==> allocations[i].provider != provider
  {
    IndexWhere(allocations, (a: Allocation) => a.provider == provider)
  }

  predicate HasItem(items: seq<Instruction>, provider: Id) {
    exists i :: 0 <= i < |items| && items[i].provider == provider
  }

  /** The checks made on one request item before anything is reserved. */
  predicate ItemAllocated(request: PayoutRequest, item: Instruction) {
    var k := AllocationIndex(request.allocations, item.provider);
    && k < |request.allocations|
    && item.provider in request.invoiceMap
    && var shares := request.allocations[k].shares;
       var ids := request.invoiceMap[item.provider];
       && ids != []
       && SafeInteger(Total(shares, ShareAmount())) && Total(shares, ShareAmount()) == item.amount
       && |shares| == |ids|
       && forall i :: 0 <= i < |shares| ==> shares[i].invoice in ids
  }

  predicate Allocated(request: PayoutRequest) {
    forall k :: 0 <= k < |request.items| ==> ItemAllocated(request, request.items[k])
  }

  predicate ItemsCoverAllocations(request: PayoutRequest) {
    forall k :: 0 <= k < |request.allocations| ==> HasItem(request.items, request.allocations[k].provider)
  }

  /** `invoiceAmounts` is an object of objects: its keys do not repeat. */
  predicate WellFormed(request: PayoutRequest) {
    && (forall i, j :: 0 <= i < j < |request.allocations| ==>
          request.allocations[i].provider != request.allocations[j].provider)
    && (forall k :: 0 <= k < |request.allocations| ==> DistinctKeys(request.allocations[k].shares))
  }

  /** Passing the length and membership checks means the two listings name the same invoices, once each. */
  lemma AcceptedItemListsItsInvoices(request: PayoutRequest, item: Instruction)
    requires WellFormed(request) && ItemAllocated(request, item)
    ensures var shares := request.allocations[AllocationIndex(request.allocations, item.provider)].shares;
      var ids := request.invoiceMap[item.provider];
      && Distinct(ids)
      && (forall x :: x in ids <==> exists i :: 0 <= i < |shares| && shares[i].invoice == x)
  {
    var shares := request.allocations[AllocationIndex(request.allocations, item.provider)].shares;
    var ids := request.invoiceMap[item.provider];
    var keys := seq(|shares|, i requires 0 <= i < |shares| => shares[i].invoice);
    forall x | x in keys ensures x in ids {
      var i :| 0 <= i < |keys| && keys[i] == x;
      assert shares[i].invoice in ids;
    }
    PigeonholeSubset(keys, ids);
    forall x ensures x in ids <==> exists i :: 0 <= i < |shares| && shares[i].invoice == x {
      if x in ids {
        assert x in keys;
        var i :| 0 <= i < |keys| && keys[i] == x;
        assert shares[i].invoice == x;
      }
    }
  }

  lemma PairsTotal(invoices: seq<EligibleInvoice>)
    ensures Total(Pairs(invoices), ShareAmount()) == Total(invoices, OfferAmount())
    ensures DistinctKeys(Pairs(invoices)) <==> DistinctInvoices(invoices)
  {
    TotalCongruent(Pairs(invoices), invoices, ShareAmount(), OfferAmount());
    if !DistinctInvoices(invoices) {
      var i, j :| 0 <= i < j < |invoices| && invoices[i].invoice == invoices[j].invoice;
      assert Pairs(invoices)[i].invoice == Pairs(invoices)[j].invoice;
    }
  }

  lemma BuiltAllocationIndex(profiles: map<Id, Profile>, groups: seq<Group>, batch: Id, run: Id, k: nat)
    requires DistinctGroups(groups) && k < |Chosen(profiles, groups)|
    ensures var request := BuildRequest(profiles, groups, batch, run);
      AllocationIndex(request.allocations, Chosen(profiles, groups)[k].provider) == k
  {
    ChosenDistinct(profiles, groups);
    var chosen := Chosen(profiles, groups);
    var request := BuildRequest(profiles, groups, batch, run);
    assert forall i :: 0 <= i < |chosen| ==> request.allocations[i].provider == chosen[i].provider;
  }

  /** The allocation made of some offers has a share for each exactly when no invoice is offered twice; then the
      shares are the offers. */
  lemma SharesMatchExactly(invoices: seq<EligibleInvoice>)
    ensures |FromEntries(Pairs(invoices))| == |InvoiceIds(invoices)| <==> DistinctInvoices(invoices)
    ensures DistinctInvoices(invoices) ==>
      Total(FromEntries(Pairs(invoices)), ShareAmount()) == Total(invoices, OfferAmount())
    ensures DistinctInvoices(invoices) ==>
      forall i :: 0 <= i < |FromEntries(Pairs(invoices))| ==>
        FromEntries(Pairs(invoices))[i].invoice in InvoiceIds(invoices)
  {
    var pairs := Pairs(invoices);
    FromEntriesDistinct(pairs);
    PairsTotal(invoices);
    if DistinctKeys(pairs) {
      FromEntriesIdentity(pairs);
      assert forall i :: 0 <= i < |pairs| ==> pairs[i].invoice == InvoiceIds(invoices)[i];
    }
  }

  /** A built item passes the reservation's checks exactly when its group names no invoice twice. */
  lemma BuiltItemAllocated(profiles: map<Id, Profile>, groups: seq<Group>, batch: Id, run: Id, k: nat)
    requires DistinctGroups(groups) && k < |Chosen(profiles, groups)|
    requires Chosen(profiles, groups)[k].invoices != []
    ensures var request := BuildRequest(profiles, groups, batch, run);
      ItemAllocated(request, request.items[k]) <==> DistinctInvoices(Chosen(profiles, groups)[k].invoices)
  {
    var chosen := Chosen(profiles, groups);
    ChosenDistinct(profiles, groups);
    InvoiceMapAt(chosen, k);
    BuiltAllocationIndex(profiles, groups, batch, run, k);
    SharesMatchExactly(chosen[k].invoices);
  }

  predicate GroupsDistinct(groups: seq<Group>) {
    forall k :: 0 <= k < |groups| ==> DistinctInvoices(groups[k].invoices)
  }

  /** The whole job passes exactly when no provider to be paid has an invoice offered twice, that is,
      when no invoice has two INCOME rows left to pay out. */
  lemma BuiltRequestAccepted(profiles: map<Id, Profile>, offers: seq<EligibleInvoice>, batch: Id, run: Id)
    ensures var groups := GroupByProvider(offers);
      var request := BuildRequest(profiles, groups, batch, run);
      && WellFormed(request) && ItemsCoverAllocations(request)
      && (Allocated(request) <==> GroupsDistinct(Chosen(profiles, groups)))
  {
    var groups := GroupByProvider(offers);
    var chosen := Chosen(profiles, groups);
    var request := BuildRequest(profiles, groups, batch, run);
    GroupingPartitions(offers);
    ChosenDistinct(profiles, groups);
    forall k | 0 <= k < |chosen|
      ensures ItemAllocated(request, request.items[k]) <==> DistinctInvoices(chosen[k].invoices)
      ensures HasItem(request.items, request.allocations[k].provider)
    {
      assert chosen[k] in groups;
      BuiltItemAllocated(profiles, groups, batch, run, k);
      assert request.items[k].provider == request.allocations[k].provider;
    }
  }

  lemma {:induction false} FilterDistinct(offers: seq<EligibleInvoice>, p: EligibleInvoice -> bool)
    requires DistinctInvoices(offers)
    ensures DistinctInvoices(Filter(offers, p))
  {
    if offers != [] {
      var n := |offers| - 1;
      FilterDistinct(offers[..n], p);
      forall x | x in Filter(offers[..n], p) ensures x.invoice != offers[n].invoice {
        FilterMember(offers[..n], p, x);
      }
    }
  }

  lemma DistinctOffersDistinctGroups(profiles: map<Id, Profile>, offers: seq<EligibleInvoice>)
    requires DistinctInvoices(offers)
    ensures GroupsDistinct(Chosen(profiles, GroupByProvider(offers)))
  {
    var groups := GroupByProvider(offers);
    GroupingPartitions(offers);
    var chosen := Chosen(profiles, groups);
    forall k | 0 <= k < |chosen| ensures DistinctInvoices(chosen[k].invoices) {
      assert chosen[k] in groups;
      FilterDistinct(offers, PaidToProvider(chosen[k].provider));
    }
  }

  // ---- Lines ----------------------------------------------------------------

  function LinesOf(a: Allocation): (lines: seq<Line>)
    ensures |lines| == |a.shares|
    ensures forall i :: 0 <= i < |lines| ==> lines[i] == Line(a.provider, a.shares[i].invoice, a.shares[i].amount)
  {
    seq(|a.shares|, i requires 0 <= i < |a.shares| => Line(a.provider, a.shares[i].invoice, a.shares[i].amount))
  }

  /** The (provider, invoice, amount) triples a job reserves, in order. */
  function Lines(allocations: seq<Allocation>): seq<Line> {
    if allocations == [] then []
    else Lines(allocations[..|allocations| - 1]) + LinesOf(allocations[|allocations| - 1])
  }

  function LineFor(invoice: Id): Line -> int {
    (l: Line) => if l.invoice == invoice then l.amount else 0
  }

  function LineTo(provider: Id): Line -> int {
    (l: Line) => if l.provider == provider then l.amount else 0
  }

  predicate DistinctLines(lines: seq<Line>) {
    forall i, j :: 0 <= i < j < |lines| ==>
      lines[i].provider != lines[j].provider || lines[i].invoice != lines[j].invoice
  }

  lemma {:induction false} LinesHaveProvider(allocations: seq<Allocation>, l: Line)
    requires l in Lines(allocations)
    ensures exists k :: 0 <= k < |allocations| && allocations[k].provider == l.provider && l in LinesOf(allocations[k])
  {
    var n := |allocations| - 1;
    if l in LinesOf(allocations[n]) {
    } else {
      LinesHaveProvider(allocations[..n], l);
      var k :| 0 <= k < n && allocations[..n][k].provider == l.provider && l in LinesOf(allocations[..n][k]);
      assert allocations[k] == allocations[..n][k];
    }
  }

  lemma {:induction false} LinesDistinct(allocations: seq<Allocation>)
    requires forall i, j :: 0 <= i < j < |allocations| ==> allocations[i].provider != allocations[j].provider
    requires forall k :: 0 <= k < |allocations| ==> DistinctKeys(allocations[k].shares)
    ensures DistinctLines(Lines(allocations))
  {
    if allocations != [] {
      var n := |allocations| - 1;
      LinesDistinct(allocations[..n]);
      forall l | l in Lines(allocations[..n]) ensures l.provider != allocations[n].provider {
        LinesHaveProvider(allocations[..n], l);
      }
    }
  }

  /** The lines addressed to a provider add up to that provider's allocation. */
  lemma {:induction false} LinesToProvider(allocations: seq<Allocation>, k: nat)
    requires forall i, j :: 0 <= i < j < |allocations| ==> allocations[i].provider != allocations[j].provider
    requires k < |allocations|
    ensures Total(Lines(allocations), LineTo(allocations[k].provider)) == Total(allocations[k].shares, ShareAmount())
  {
    var n := |allocations| - 1;
    var provider := allocations[k].provider;
    TotalAppend(Lines(allocations[..n]), LinesOf(allocations[n]), LineTo(provider));
    if k < n {
      LinesToProvider(allocations[..n], k);
      TotalZero(LinesOf(allocations[n]), LineTo(provider));
    } else {
      var earlier := Lines(allocations[..n]);
      forall i | 0 <= i < |earlier| ensures LineTo(provider)(earlier[i]) == 0 {
        LinesHaveProvider(allocations[..n], earlier[i]);
      }
      TotalZero(earlier, LineTo(provider));
      TotalCongruent(LinesOf(allocations[n]), allocations[n].shares, LineTo(provider), ShareAmount());
    }
  }

  lemma BuiltLinesOfGroup(g: Group, invoice: Id)
    requires DistinctInvoices(g.invoices)
    requires forall i :: 0 <= i < |g.invoices| ==> g.invoices[i].amount > 0
    ensures 0 <= Total(LinesOf(AllocationFor(g)), LineFor(invoice)) == Total(g.invoices, OfferFor(invoice))
    ensures forall i :: 0 <= i < |LinesOf(AllocationFor(g))| ==> LinesOf(AllocationFor(g))[i].amount > 0
  {
    PairsTotal(g.invoices);
    FromEntriesIdentity(Pairs(g.invoices));
    TotalNonNegative(g.invoices, OfferFor(invoice));
    TotalCongruent(LinesOf(AllocationFor(g)), g.invoices, LineFor(invoice), OfferFor(invoice));
  }

  /** The lines of a job, group by group: those of every group that can be paid. */
  function JobLines(profiles: map<Id, Profile>, groups: seq<Group>): seq<Line> {
    if groups == [] then []
    else
      var n := |groups| - 1;
      JobLines(profiles, groups[..n]) + if Payable(profiles, groups[n]) then LinesOf(AllocationFor(groups[n])) else []
  }

  lemma {:induction false} JobLinesAreLines(profiles: map<Id, Profile>, groups: seq<Group>)
    ensures Lines(AllocationsFor(Chosen(profiles, groups))) == JobLines(profiles, groups)
  {
    if groups != [] {
      var n := |groups| - 1;
      JobLinesAreLines(profiles, groups[..n]);
      if Payable(profiles, groups[n]) {
        var before := Chosen(profiles, groups[..n]);
        AllocationsSnoc(before, groups[n]);
        assert (AllocationsFor(before) + [AllocationFor(groups[n])])[..|before|] == AllocationsFor(before);
      }
    }
  }

  predicate PositiveOffers(g: Group) {
    forall i :: 0 <= i < |g.invoices| ==> g.invoices[i].amount > 0
  }

  lemma {:induction false} JobLinesPositive(profiles: map<Id, Profile>, groups: seq<Group>)
    requires GroupsDistinct(groups) && forall k :: 0 <= k < |groups| ==> PositiveOffers(groups[k])
    ensures forall l :: l in JobLines(profiles, groups) ==> l.amount > 0
  {
    if groups != [] {
      var n := |groups| - 1;
      JobLinesPositive(profiles, groups[..n]);
      BuiltLinesOfGroup(groups[n], 0);
    }
  }

  /** What a group is offered, if it can be paid. */
  function MaskedTotal(profiles: map<Id, Profile>, w: EligibleInvoice -> int): Group -> int {
    (g: Group) => if Payable(profiles, g) then Total(g.invoices, w) else 0
  }

  /** A group adds its offers to the lines if it can be paid, and nothing otherwise. */
  lemma JobLinesLast(profiles: map<Id, Profile>, groups: seq<Group>, invoice: Id)
    requires groups != [] && DistinctInvoices(groups[|groups| - 1].invoices) && PositiveOffers(groups[|groups| - 1])
    ensures Total(JobLines(profiles, groups), LineFor(invoice))
      == Total(JobLines(profiles, groups[..|groups| - 1]), LineFor(invoice))
         + MaskedTotal(profiles, OfferFor(invoice))(groups[|groups| - 1])
  {
    var g := groups[|groups| - 1];
    var lines := JobLines(profiles, groups[..|groups| - 1]);
    BuiltLinesOfGroup(g, invoice);
    if Payable(profiles, g) {
      TotalAppend(lines, LinesOf(AllocationFor(g)), LineFor(invoice));
    } else {
      assert JobLines(profiles, groups) == lines + [];
      assert lines + [] == lines;
    }
  }

  lemma {:induction false} JobLinesTotal(profiles: map<Id, Profile>, groups: seq<Group>, invoice: Id)
    requires GroupsDistinct(groups) && forall k :: 0 <= k < |groups| ==> PositiveOffers(groups[k])
    ensures Total(JobLines(profiles, groups), LineFor(invoice))
      == Total(groups, MaskedTotal(profiles, OfferFor(invoice)))
  {
    if groups != [] {
      JobLinesTotal(profiles, groups[..|groups| - 1], invoice);
      JobLinesLast(profiles, groups, invoice);
      TotalLast(groups, MaskedTotal(profiles, OfferFor(invoice)));
    }
  }

  lemma JobLinesWithin(profiles: map<Id, Profile>, groups: seq<Group>, invoice: Id)
    requires GroupsDistinct(groups) && forall k :: 0 <= k < |groups| ==> PositiveOffers(groups[k])
    ensures 0 <= Total(JobLines(profiles, groups), LineFor(invoice)) <= Total(groups, GroupTotal(OfferFor(invoice)))
  {
    var masked, whole := MaskedTotal(profiles, OfferFor(invoice)), GroupTotal(OfferFor(invoice));
    JobLinesTotal(profiles, groups, invoice);
    forall k | 0 <= k < |groups| ensures 0 <= masked(groups[k]) <= whole(groups[k]) {
      assert PositiveOffers(groups[k]);
      TotalNonNegative(groups[k].invoices, OfferFor(invoice));
    }
    TotalNonNegative(groups, masked);
    TotalMonotone(groups, groups, masked, whole);
  }

  /** What a built job takes from an invoice is at most what was offered for it. */
  lemma BuiltLinesWithinGroups(profiles: map<Id, Profile>, groups: seq<Group>, invoice: Id)
    requires GroupsDistinct(groups)
    requires forall k, i :: 0 <= k < |groups| && 0 <= i < |groups[k].invoices| ==> groups[k].invoices[i].amount > 0
    ensures var lines := Lines(AllocationsFor(Chosen(profiles, groups)));
      && 0 <= Total(lines, LineFor(invoice)) <= Total(groups, GroupTotal(OfferFor(invoice)))
      && forall i :: 0 <= i < |lines| ==> lines[i].amount > 0
  {
    assert forall k :: 0 <= k < |groups| ==> PositiveOffers(groups[k]);
    JobLinesAreLines(profiles, groups);
    JobLinesPositive(profiles, groups);
    JobLinesWithin(profiles, groups, invoice);
    var lines := JobLines(profiles, groups);
    assert forall i :: 0 <= i < |lines| ==> lines[i] in lines;
  }
}
