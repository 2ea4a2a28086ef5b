/** Runs the payout engine's own order of operations allows, from an empty ledger to a ledger on which an invoice
    is debited past its income: what is lost where a condition of the money theorem is not met. */
module MoneyMishaps {
  import opened Sums
  import opened Ledger
  import opened PayoutResults
  import opened PayoutJobs
  import opened Reservation
  import opened MoneyMachine
  import opened MoneySafety
  import opened MoneyLimits

  /** What the code itself sees to: jobs are reserved before they are created, created before results are folded
      in, and runs and batches get new identifiers. Nothing is asked of amounts, of answers or of timing. */
  predicate Sequenced(w: World, e: Event) {
    match e
    case Settle(invoice, _) => invoice in w.invoices
    case Schedule(_, batch, run) => Unused(w, batch, run)
    case Reserve(request) => request in w.pending || request in w.reserved
    case Create(request) => request in w.reserved
    case Persist(request, _) => request in w.reserved && request.idempotencyKey in w.created
    case MarkUnknown(_) => true
    case PayOsTransfers(request, _) => request in w.reserved && request.idempotencyKey in w.created
    case PayOsRefuses(request, _) => request in w.reserved && request.idempotencyKey in w.created
  }

  lemma EnabledIsSequenced(w: World, e: Event)
    ensures Enabled(w, e) ==> Sequenced(w, e)
  {
  }

  predicate SequencedRuns(w: World, events: seq<Event>)
    decreases |events|
  {
    events == [] || (Sequenced(w, events[0]) && SequencedRuns(Apply(w, events[0]), events[1..]))
  }

  predicate Overdrawn(w: World, invoice: Id) {
    Debit(w.ledger, invoice) > Credit(w.ledger, invoice)
  }

  lemma SequencedStarts(w: World, e: Event, rest: seq<Event>)
    requires Sequenced(w, e) && SequencedRuns(Apply(w, e), rest)
    ensures SequencedRuns(w, [e] + rest) && After(w, [e] + rest) == After(Apply(w, e), rest)
  {
    assert ([e] + rest)[1..] == rest;
  }

  // ---- One invoice of one provider --------------------------------------------

  predicate CanBePaid(profile: Profile) {
    profile.bin != "" && profile.accountNumber != ""
  }

  function LoneRequest(profile: Profile, invoice: Id, provider: Id, amount: int, n: Id): PayoutRequest {
    PayoutRequest(n, n, n, [Instruction(provider, amount, profile.bin, profile.accountNumber)],
                  map[provider := [invoice]], [Allocation(provider, [Share(invoice, amount)])])
  }

  function LoneStart(invoice: Id, provider: Id): World {
    Start(map[invoice := Invoice(provider, false)])
  }

  /** The state once the invoice is settled, with some payout rows and jobs. */
  function LoneWorld(invoice: Id, provider: Id, amount: int, rows: seq<Row>, pending: seq<PayoutRequest>,
                     reserved: seq<PayoutRequest>): World {
    World([IncomeRow(invoice, provider, amount)] + rows, map[invoice := Invoice(provider, true)], pending, reserved,
          {}, {}, {})
  }

  function LoneRow(invoice: Id, provider: Id, amount: int, n: Id): Row {
    Row(PayoutShare(n, provider, invoice), PAYOUT, provider, Some(invoice), Some(n), amount, PENDING)
  }

  lemma LoneSettles(invoice: Id, provider: Id, amount: int)
    ensures Apply(LoneStart(invoice, provider), Settle(invoice, amount))
      == LoneWorld(invoice, provider, amount, [], [], [])
  {
  }

  /** At most one payout row, and that one dead: the invoice is offered in full. */
  predicate NothingTaken(rows: seq<Row>) {
    |rows| <= 1 && forall k :: 0 <= k < |rows| ==> rows[k].kind.PAYOUT? && !LiveStatus(rows[k].status)
  }

  lemma LoneOffer(invoice: Id, provider: Id, amount: int, rows: seq<Row>)
    requires 0 < amount <= MAX_SAFE_INTEGER && NothingTaken(rows)
    ensures var w := LoneWorld(invoice, provider, amount, rows, [], []);
      Eligible(w.ledger, w.invoices) == [EligibleInvoice(invoice, provider, amount)]
  {
    var w := LoneWorld(invoice, provider, amount, rows, [], []);
    forall k | 0 <= k < |w.ledger| ensures DebitOf(invoice)(w.ledger[k]) == 0 {
    }
    TotalZero(w.ledger, DebitOf(invoice));
    var one := [w.ledger[0]];
    assert one[..0] == [] && w.ledger[..1] == one;
    assert Offers(w.ledger, w.invoices, one) == [EligibleInvoice(invoice, provider, amount)];
    if |rows| == 1 {
      assert w.ledger[..|w.ledger| - 1] == one;
    } else {
      assert w.ledger == one;
    }
  }

  lemma LoneBuilt(profile: Profile, invoice: Id, provider: Id, amount: int, n: Id)
    requires CanBePaid(profile) && 0 < amount <= MAX_SAFE_INTEGER
    ensures BuildRequest(map[provider := profile], GroupByProvider([EligibleInvoice(invoice, provider, amount)]), n, n)
      == LoneRequest(profile, invoice, provider, amount, n)
  {
    var offer := EligibleInvoice(invoice, provider, amount);
    var group := Group(provider, [offer]);
    assert [offer][..0] == [];
    assert GroupByProvider([offer]) == [group];
    var profiles := map[provider := profile];
    assert [offer] == [] + [offer];
    TotalSnoc([], offer, OfferAmount());
    assert GroupAmount(group) == amount;
    assert [group][..0] == [] && Chosen(profiles, [group]) == [group];
    assert Pairs([offer]) == [Share(invoice, amount)];
    FromEntriesIdentity(Pairs([offer]));
    assert InvoiceIds([offer]) == [invoice];
    assert AllocationsFor([group]) == [Allocation(provider, [Share(invoice, amount)])];
    assert InvoiceMap([group]) == map[provider := [invoice]];
  }

  /** The job the next run builds. */
  lemma LoneScheduled(profile: Profile, w: World, invoice: Id, provider: Id, amount: int, rows: seq<Row>, n: Id)
    requires CanBePaid(profile) && 0 < amount <= MAX_SAFE_INTEGER && NothingTaken(rows)
    requires var lone := LoneWorld(invoice, provider, amount, rows, [], []);
      w.ledger == lone.ledger && w.invoices == lone.invoices
    ensures Scheduled(w, Schedule(map[provider := profile], n, n)) == LoneRequest(profile, invoice, provider, amount, n)
  {
    LoneOffer(invoice, provider, amount, rows);
    LoneBuilt(profile, invoice, provider, amount, n);
  }

  lemma LoneLines(profile: Profile, invoice: Id, provider: Id, amount: int, n: Id)
    ensures var q := LoneRequest(profile, invoice, provider, amount, n);
      && Lines(q.allocations) == [Line(provider, invoice, amount)]
      && LinesFor(invoice)(q) == amount
  {
    var q := LoneRequest(profile, invoice, provider, amount, n);
    var lines := [Line(provider, invoice, amount)];
    assert q.allocations[..0] == [];
    assert LinesOf(q.allocations[0]) == lines;
    assert lines == [] + lines;
    TotalSnoc([], lines[0], LineFor(invoice));
  }

  lemma LoneReserved(profile: Profile, ledger: seq<Row>, invoice: Id, provider: Id, amount: int, n: Id)
    requires !HasReference(ledger, PayoutShare(n, provider, invoice))
    ensures Reserved(ledger, LoneRequest(profile, invoice, provider, amount, n))
      == ledger + [LoneRow(invoice, provider, amount, n)]
  {
    var q := LoneRequest(profile, invoice, provider, amount, n);
    var lines := [Line(provider, invoice, amount)];
    LoneLines(profile, invoice, provider, amount, n);
    assert lines[..0] == [];
    assert Missing(ledger, q, lines) == [] + [RowFor(q, lines[0])];
    assert ledger + ([] + [RowFor(q, lines[0])]) == ledger + [RowFor(q, lines[0])];
  }

  // ---- A second run before the first is reserved --------------------------------

  /** A run dies after queueing its job, the next one starts before a worker has reserved it. */
  function TwoRuns(profile: Profile, invoice: Id, provider: Id, amount: int): seq<Event> {
    var profiles := map[provider := profile];
    [Settle(invoice, amount), Schedule(profiles, 1, 1), Schedule(profiles, 2, 2),
     Reserve(LoneRequest(profile, invoice, provider, amount, 1)),
     Reserve(LoneRequest(profile, invoice, provider, amount, 2))]
  }

  /** The first step, and the invariant after it. */
  lemma LoneBeginning(invoice: Id, provider: Id, amount: int)
    requires 0 < amount
    ensures var w := LoneWorld(invoice, provider, amount, [], [], []);
      Apply(LoneStart(invoice, provider), Settle(invoice, amount)) == w && Inv(w)
  {
    LoneSettles(invoice, provider, amount);
    StartIsFine(map[invoice := Invoice(provider, false)]);
    StepKeeps(LoneStart(invoice, provider), Settle(invoice, amount));
  }

  lemma FiveSteps(w: World, e0: Event, e1: Event, e2: Event, e3: Event, e4: Event)
    requires Sequenced(w, e0)
    requires Sequenced(Apply(w, e0), e1) && Sequenced(Apply(Apply(w, e0), e1), e2)
    requires Sequenced(Apply(Apply(Apply(w, e0), e1), e2), e3)
    requires Sequenced(Apply(Apply(Apply(Apply(w, e0), e1), e2), e3), e4)
    ensures SequencedRuns(w, [e0, e1, e2, e3, e4])
    ensures After(w, [e0, e1, e2, e3, e4]) == Apply(Apply(Apply(Apply(Apply(w, e0), e1), e2), e3), e4)
  {
    var w1 := Apply(w, e0);
    var w2 := Apply(w1, e1);
    var w3 := Apply(w2, e2);
    SequencedStarts(Apply(w3, e3), e4, []);
    SequencedStarts(w3, e3, [e4] + []);
    SequencedStarts(w2, e2, [e3] + ([e4] + []));
    SequencedStarts(w1, e1, [e2] + ([e3] + ([e4] + [])));
    SequencedStarts(w, e0, [e1] + ([e2] + ([e3] + ([e4] + []))));
    assert [e0, e1, e2, e3, e4] == [e0] + ([e1] + ([e2] + ([e3] + ([e4] + []))));
  }

  lemma TwoRunsFrom(w: World, first: Event, second: Event, q1: PayoutRequest, q2: PayoutRequest, x: Id)
    requires Inv(w) && first.Schedule? && second.Schedule? && second.run != first.run && second.batch != first.batch
    requires Unused(w, first.batch, first.run) && Unused(w, second.batch, second.run)
    requires q1 == Scheduled(w, first) && q2 == Scheduled(Apply(w, first), second)
    requires LinesFor(x)(q1) > 0 && LinesFor(x)(q2) > 0
    ensures var queued := Apply(Apply(w, first), second);
      && Sequenced(queued, Reserve(q1)) && Sequenced(Apply(queued, Reserve(q1)), Reserve(q2))
      && Overdrawn(Apply(Apply(queued, Reserve(q1)), Reserve(q2)), x)
  {
    SecondRunBeforeReservationOverdraws(w, first, second, x);
    var queued := Apply(Apply(w, first), second);
    EnabledIsSequenced(queued, Reserve(q1));
    EnabledIsSequenced(Apply(queued, Reserve(q1)), Reserve(q2));
  }

  lemma LoneTwice(profile: Profile, invoice: Id, provider: Id, amount: int, w: World, first: Event, second: Event)
    requires CanBePaid(profile) && 0 < amount <= MAX_SAFE_INTEGER
    requires w == LoneWorld(invoice, provider, amount, [], [], [])
    requires first == Schedule(map[provider := profile], 1, 1) && second == Schedule(map[provider := profile], 2, 2)
    ensures Scheduled(w, first) == LoneRequest(profile, invoice, provider, amount, 1)
    ensures Scheduled(Apply(w, first), second) == LoneRequest(profile, invoice, provider, amount, 2)
    ensures LinesFor(invoice)(LoneRequest(profile, invoice, provider, amount, 1)) > 0
    ensures LinesFor(invoice)(LoneRequest(profile, invoice, provider, amount, 2)) > 0
    ensures Unused(w, 1, 1) && Unused(w, 2, 2) && Sequenced(Apply(w, first), second)
  {
    LoneScheduled(profile, w, invoice, provider, amount, [], 1);
    LoneScheduled(profile, Apply(w, first), invoice, provider, amount, [], 2);
    LoneLines(profile, invoice, provider, amount, 1);
    LoneLines(profile, invoice, provider, amount, 2);
    assert Apply(w, first).pending == [] + [LoneRequest(profile, invoice, provider, amount, 1)];
  }

  lemma TwoRunsOverdraw(profile: Profile, invoice: Id, provider: Id, amount: int)
    requires CanBePaid(profile) && 0 < amount <= MAX_SAFE_INTEGER
    ensures var events := TwoRuns(profile, invoice, provider, amount);
      SequencedRuns(LoneStart(invoice, provider), events)
      && Overdrawn(After(LoneStart(invoice, provider), events), invoice)
  {
    var profiles := map[provider := profile];
    var first, second := Schedule(profiles, 1, 1), Schedule(profiles, 2, 2);
    var q1 := LoneRequest(profile, invoice, provider, amount, 1);
    var q2 := LoneRequest(profile, invoice, provider, amount, 2);
    var w := LoneWorld(invoice, provider, amount, [], [], []);
    LoneBeginning(invoice, provider, amount);
    LoneTwice(profile, invoice, provider, amount, w, first, second);
    TwoRunsFrom(w, first, second, q1, q2, invoice);
    FiveSteps(LoneStart(invoice, provider), Settle(invoice, amount), first, second, Reserve(q1), Reserve(q2));
  }

  // ---- The usual beginning: settled, scheduled, reserved ------------------------

  function Reserving(profile: Profile, invoice: Id, provider: Id, amount: int): seq<Event> {
    [Settle(invoice, amount), Schedule(map[provider := profile], 1, 1),
     Reserve(LoneRequest(profile, invoice, provider, amount, 1))]
  }

  function ReservedWorld(profile: Profile, invoice: Id, provider: Id, amount: int): World {
    LoneWorld(invoice, provider, amount, [LoneRow(invoice, provider, amount, 1)], [],
              [LoneRequest(profile, invoice, provider, amount, 1)])
  }

  lemma ReservingFrom(w: World, e: Event, q: PayoutRequest)
    requires Inv(w) && e.Schedule? && q == Scheduled(w, e) && w.pending == [] && w.reserved == []
    ensures Sequenced(w, e) && Apply(w, e) == w.(pending := [q]) && Sequenced(Apply(w, e), Reserve(q))
    ensures var after := Apply(Apply(w, e), Reserve(q));
      after == w.(ledger := Reserved(w.ledger, q), reserved := [q]) && Inv(after)
  {
    assert forall x: Id :: Promised(w, x) == 0;
    StepKeeps(w, e);
    assert Without([q], q) == [];
    StepKeeps(Apply(w, e), Reserve(q));
  }

  lemma LoneReservation(profile: Profile, invoice: Id, provider: Id, amount: int, w: World, q: PayoutRequest)
    requires w == LoneWorld(invoice, provider, amount, [], [], [])
    requires q == LoneRequest(profile, invoice, provider, amount, 1)
    ensures w.(ledger := Reserved(w.ledger, q), reserved := [q]) == ReservedWorld(profile, invoice, provider, amount)
  {
    LoneReserved(profile, w.ledger, invoice, provider, amount, 1);
  }

  lemma ReservingSteps(profile: Profile, invoice: Id, provider: Id, amount: int, w: World, e: Event, q: PayoutRequest)
    requires CanBePaid(profile) && 0 < amount <= MAX_SAFE_INTEGER
    requires w == LoneWorld(invoice, provider, amount, [], [], []) && e == Schedule(map[provider := profile], 1, 1)
    requires q == LoneRequest(profile, invoice, provider, amount, 1)
    ensures Apply(LoneStart(invoice, provider), Settle(invoice, amount)) == w
    ensures Sequenced(w, e) && Sequenced(Apply(w, e), Reserve(q))
    ensures var end := Apply(Apply(w, e), Reserve(q));
      end == ReservedWorld(profile, invoice, provider, amount) && Inv(end)
  {
    LoneBeginning(invoice, provider, amount);
    LoneScheduled(profile, w, invoice, provider, amount, [], 1);
    LoneReservation(profile, invoice, provider, amount, w, q);
    ReservingFrom(w, e, q);
  }

  lemma ReservedDebit(profile: Profile, invoice: Id, provider: Id, amount: int)
    ensures Debit(ReservedWorld(profile, invoice, provider, amount).ledger, invoice) == amount
  {
    var income, row := IncomeRow(invoice, provider, amount), LoneRow(invoice, provider, amount, 1);
    TotalSingle([income] + [row], DebitOf(invoice), 1);
  }

  lemma ThreeSteps(w: World, e0: Event, e1: Event, e2: Event, rest: seq<Event>)
    requires Sequenced(w, e0) && Sequenced(Apply(w, e0), e1) && Sequenced(Apply(Apply(w, e0), e1), e2)
    requires SequencedRuns(Apply(Apply(Apply(w, e0), e1), e2), rest)
    ensures SequencedRuns(w, [e0, e1, e2] + rest)
    ensures After(w, [e0, e1, e2] + rest) == After(Apply(Apply(Apply(w, e0), e1), e2), rest)
  {
    var w1 := Apply(w, e0);
    SequencedStarts(Apply(w1, e1), e2, rest);
    SequencedStarts(w1, e1, [e2] + rest);
    SequencedStarts(w, e0, [e1] + ([e2] + rest));
    assert [e0, e1, e2] + rest == [e0] + ([e1] + ([e2] + rest));
  }

  lemma ReservingRuns(profile: Profile, invoice: Id, provider: Id, amount: int, rest: seq<Event>)
    requires CanBePaid(profile) && 0 < amount <= MAX_SAFE_INTEGER
    requires SequencedRuns(ReservedWorld(profile, invoice, provider, amount), rest)
    ensures var events := Reserving(profile, invoice, provider, amount) + rest;
      && SequencedRuns(LoneStart(invoice, provider), events)
      && After(LoneStart(invoice, provider), events) == After(ReservedWorld(profile, invoice, provider, amount), rest)
  {
    var e, q := Schedule(map[provider := profile], 1, 1), LoneRequest(profile, invoice, provider, amount, 1);
    ReservingSteps(profile, invoice, provider, amount, LoneWorld(invoice, provider, amount, [], [], []), e, q);
    ThreeSteps(LoneStart(invoice, provider), Settle(invoice, amount), e, Reserve(q), rest);
  }

  /** PayOS reports less for an invoice than before, when it is already reserved for payout. */
  lemma SmallerFigureOverdraws(profile: Profile, invoice: Id, provider: Id, amount: int, less: int)
    requires CanBePaid(profile) && 0 <= less < amount <= MAX_SAFE_INTEGER
    ensures var events := Reserving(profile, invoice, provider, amount) + [Settle(invoice, less)];
      SequencedRuns(LoneStart(invoice, provider), events)
      && Overdrawn(After(LoneStart(invoice, provider), events), invoice)
  {
    var w := ReservedWorld(profile, invoice, provider, amount);
    ReservingSteps(profile, invoice, provider, amount, LoneWorld(invoice, provider, amount, [], [], []),
                   Schedule(map[provider := profile], 1, 1), LoneRequest(profile, invoice, provider, amount, 1));
    ReservedDebit(profile, invoice, provider, amount);
    assert Promised(w, invoice) == 0;
    SettleSafeExactly(w, invoice, less);
    SequencedStarts(w, Settle(invoice, less), []);
    assert [Settle(invoice, less)] + [] == [Settle(invoice, less)];
    ReservingRuns(profile, invoice, provider, amount, [Settle(invoice, less)]);
  }

  // ---- A failure taken back -----------------------------------------------------

  lemma FailedResponse(invoice: Id, provider: Id, amount: int)
    ensures var income, row := IncomeRow(invoice, provider, amount), LoneRow(invoice, provider, amount, 1);
      Persisted([income, row], 1, [Transaction(provider, amount, TxFailed)]) == [income, row.(status := FAILED)]
  {
    var income, row := IncomeRow(invoice, provider, amount), LoneRow(invoice, provider, amount, 1);
    var transactions := [Transaction(provider, amount, TxFailed)];
    TotalSingle([income, row], AmountIn(1, provider), 1);
    assert Requested([income, row], 1, provider) == amount;
    assert Verdict([income, row], 1, transactions, provider) == FAILED;
  }

  lemma SilentResponse(invoice: Id, provider: Id, amount: int)
    ensures var income, row := IncomeRow(invoice, provider, amount), LoneRow(invoice, provider, amount, 1);
      var later := LoneRow(invoice, provider, amount, 2);
      Persisted([income, row.(status := FAILED), later], 1, []) == [income, row.(status := UNKNOWN), later]
  {
  }

  /** The first job is created and fails; the freed invoice is scheduled and reserved again. */
  function Failing(profile: Profile, invoice: Id, provider: Id, amount: int): seq<Event> {
    var q1 := LoneRequest(profile, invoice, provider, amount, 1);
    [Create(q1), Persist(q1, [Transaction(provider, amount, TxFailed)])]
  }

  function Retrying(profile: Profile, invoice: Id, provider: Id, amount: int): seq<Event> {
    [Schedule(map[provider := profile], 2, 2), Reserve(LoneRequest(profile, invoice, provider, amount, 2))]
  }

  function FailedWorld(profile: Profile, invoice: Id, provider: Id, amount: int): World {
    LoneWorld(invoice, provider, amount, [LoneRow(invoice, provider, amount, 1).(status := FAILED)], [],
              [LoneRequest(profile, invoice, provider, amount, 1)]).(created := {1})
  }

  function RetriedWorld(profile: Profile, invoice: Id, provider: Id, amount: int): World {
    var row, later := LoneRow(invoice, provider, amount, 1), LoneRow(invoice, provider, amount, 2);
    LoneWorld(invoice, provider, amount, [row.(status := FAILED), later], [],
              [LoneRequest(profile, invoice, provider, amount, 1), LoneRequest(profile, invoice, provider, amount, 2)])
    .(created := {1})
  }

  lemma TwoSteps(w: World, e0: Event, e1: Event, rest: seq<Event>)
    requires Sequenced(w, e0) && Sequenced(Apply(w, e0), e1) && SequencedRuns(Apply(Apply(w, e0), e1), rest)
    ensures SequencedRuns(w, [e0, e1] + rest)
    ensures After(w, [e0, e1] + rest) == After(Apply(Apply(w, e0), e1), rest)
  {
    SequencedStarts(Apply(w, e0), e1, rest);
    SequencedStarts(w, e0, [e1] + rest);
    assert [e0, e1] + rest == [e0] + ([e1] + rest);
  }

  lemma FailingRuns(profile: Profile, invoice: Id, provider: Id, amount: int, rest: seq<Event>)
    requires SequencedRuns(FailedWorld(profile, invoice, provider, amount), rest)
    ensures var w := ReservedWorld(profile, invoice, provider, amount);
      var events := Failing(profile, invoice, provider, amount) + rest;
      SequencedRuns(w, events) && After(w, events) == After(FailedWorld(profile, invoice, provider, amount), rest)
  {
    var w := ReservedWorld(profile, invoice, provider, amount);
    var events := Failing(profile, invoice, provider, amount);
    var income, row := IncomeRow(invoice, provider, amount), LoneRow(invoice, provider, amount, 1);
    FailedResponse(invoice, provider, amount);
    var w1 := Apply(w, events[0]);
    assert w1.ledger == [income, row] && w1.created == {1};
    var w2 := Apply(w1, events[1]);
    assert w2.ledger == [income] + [row.(status := FAILED)];
    assert w2 == FailedWorld(profile, invoice, provider, amount);
    TwoSteps(w, events[0], events[1], rest);
  }

  /** A job scheduled and reserved with nothing else queued. */
  lemma ReserveNext(w: World, e: Event, q: PayoutRequest)
    requires e.Schedule? && q == Scheduled(w, e) && w.pending == [] && q !in w.reserved && Unused(w, e.batch, e.run)
    ensures Sequenced(w, e) && Sequenced(Apply(w, e), Reserve(q))
    ensures Apply(Apply(w, e), Reserve(q))
      == w.(ledger := Reserved(w.ledger, q), reserved := w.reserved + [q])
  {
    assert [] + [q] == [q] && Without([q], q) == [];
  }

  lemma RetryScheduled(profile: Profile, w: World, invoice: Id, provider: Id, amount: int)
    requires CanBePaid(profile) && 0 < amount <= MAX_SAFE_INTEGER
    requires w == FailedWorld(profile, invoice, provider, amount)
    ensures Scheduled(w, Schedule(map[provider := profile], 2, 2)) == LoneRequest(profile, invoice, provider, amount, 2)
  {
    var row := LoneRow(invoice, provider, amount, 1).(status := FAILED);
    LoneScheduled(profile, w, invoice, provider, amount, [row], 2);
  }

  lemma RetryReserved(profile: Profile, w: World, q: PayoutRequest, invoice: Id, provider: Id, amount: int)
    requires w == FailedWorld(profile, invoice, provider, amount)
    requires q == LoneRequest(profile, invoice, provider, amount, 2)
    ensures w.(ledger := Reserved(w.ledger, q), reserved := w.reserved + [q])
      == RetriedWorld(profile, invoice, provider, amount)
  {
    LoneReserved(profile, w.ledger, invoice, provider, amount, 2);
    assert w.ledger + [LoneRow(invoice, provider, amount, 2)]
      == RetriedWorld(profile, invoice, provider, amount).ledger;
    assert w.reserved + [q] == RetriedWorld(profile, invoice, provider, amount).reserved;
  }

  lemma RetryingSteps(w: World, e: Event, q: PayoutRequest, end: World, rest: seq<Event>)
    requires e.Schedule? && q == Scheduled(w, e) && w.pending == [] && q !in w.reserved && Unused(w, e.batch, e.run)
    requires end == w.(ledger := Reserved(w.ledger, q), reserved := w.reserved + [q]) && SequencedRuns(end, rest)
    ensures SequencedRuns(w, [e, Reserve(q)] + rest) && After(w, [e, Reserve(q)] + rest) == After(end, rest)
  {
    ReserveNext(w, e, q);
    TwoSteps(w, e, Reserve(q), rest);
  }

  lemma RetryingRuns(profile: Profile, invoice: Id, provider: Id, amount: int, rest: seq<Event>)
    requires CanBePaid(profile) && 0 < amount <= MAX_SAFE_INTEGER
    requires SequencedRuns(RetriedWorld(profile, invoice, provider, amount), rest)
    ensures var w := FailedWorld(profile, invoice, provider, amount);
      var events := Retrying(profile, invoice, provider, amount) + rest;
      SequencedRuns(w, events) && After(w, events) == After(RetriedWorld(profile, invoice, provider, amount), rest)
  {
    var w := FailedWorld(profile, invoice, provider, amount);
    var e, q := Schedule(map[provider := profile], 2, 2), LoneRequest(profile, invoice, provider, amount, 2);
    RetryScheduled(profile, w, invoice, provider, amount);
    RetryReserved(profile, w, q, invoice, provider, amount);
    RetryingSteps(w, e, q, RetriedWorld(profile, invoice, provider, amount), rest);
  }

  lemma LedgerOfThree(a: Row, b: Row, c: Row, invoice: Id)
    ensures Debit([a, b, c], invoice) == DebitOf(invoice)(a) + DebitOf(invoice)(b) + DebitOf(invoice)(c)
    ensures Credit([a, b, c], invoice) == CreditOf(invoice)(a) + CreditOf(invoice)(b) + CreditOf(invoice)(c)
  {
    assert [a, b, c] == [a, b] + [c] && [a, b] == [a] + [b];
    TotalSnoc([a, b], c, DebitOf(invoice));
    TotalSnoc([a], b, DebitOf(invoice));
    TotalSnoc([a, b], c, CreditOf(invoice));
    TotalSnoc([a], b, CreditOf(invoice));
  }

  /** PayOS fails a payout and its invoice is reserved again; then a response for the first batch leaves the
      provider out, which makes the failed row UNKNOWN, so live. */
  lemma RevivedRowOverdraws(profile: Profile, invoice: Id, provider: Id, amount: int)
    requires CanBePaid(profile) && 0 < amount <= MAX_SAFE_INTEGER
    ensures var silent := Persist(LoneRequest(profile, invoice, provider, amount, 1), []);
      var events := Reserving(profile, invoice, provider, amount) + (Failing(profile, invoice, provider, amount)
                    + (Retrying(profile, invoice, provider, amount) + [silent]));
      SequencedRuns(LoneStart(invoice, provider), events)
      && Overdrawn(After(LoneStart(invoice, provider), events), invoice)
  {
    var silent := Persist(LoneRequest(profile, invoice, provider, amount, 1), []);
    var w := RetriedWorld(profile, invoice, provider, amount);
    var row, later := LoneRow(invoice, provider, amount, 1), LoneRow(invoice, provider, amount, 2);
    var income := IncomeRow(invoice, provider, amount);
    SilentResponse(invoice, provider, amount);
    assert w.ledger == [income, row.(status := FAILED), later];
    LedgerOfThree(income, row.(status := UNKNOWN), later, invoice);
    SequencedStarts(w, silent, []);
    assert [silent] + [] == [silent];
    RetryingRuns(profile, invoice, provider, amount, [silent]);
    FailingRuns(profile, invoice, provider, amount, Retrying(profile, invoice, provider, amount) + [silent]);
    ReservingRuns(profile, invoice, provider, amount, Failing(profile, invoice, provider, amount)
                  + (Retrying(profile, invoice, provider, amount) + [silent]));
  }
}
