/** Reserving a payout job's lines in the ledger, once however often it is asked. */
module Reservation {
  import opened Sums
  import opened Ledger
  import opened PayoutResults
  import opened PayoutJobs

  function RefOf(request: PayoutRequest, l: Line): Reference {
    PayoutShare(request.run, l.provider, l.invoice)
  }

  function RowFor(request: PayoutRequest, l: Line): Row {
    Row(RefOf(request, l), PAYOUT, l.provider, Some(l.invoice), Some(request.batch), l.amount, PENDING)
  }

  /** `findUnique` on the reference column. */
  function FindRow(ledger: seq<Row>, reference: Reference): (found: Option<Row>)
    ensures found.None? <==> !HasReference(ledger, reference)
    ensures found.Some? ==> found.value in ledger && found.value.reference == reference
  {
    if ledger == [] then None
    else if ledger[0].reference == reference then Some(ledger[0])
    else
      assert forall i :: 0 < i < |ledger| ==> ledger[i] == ledger[1..][i - 1];
      assert forall i :: 0 <= i < |ledger[1..]| ==> ledger[1..][i] == ledger[i + 1];
      FindRow(ledger[1..], reference)
  }

  /** An existing row is this line's own earlier reservation. Its status is not looked at. */
  predicate Agrees(r: Row, request: PayoutRequest, l: Line) {
    && r.provider == l.provider && r.invoice == Some(l.invoice)
    && r.amount == l.amount && r.batch == Some(request.batch)
  }

  predicate Conflicts(ledger: seq<Row>, request: PayoutRequest, l: Line) {
    var found := FindRow(ledger, RefOf(request, l));
    found.Some? && !Agrees(found.value, request, l)
  }

  predicate Conflicting(ledger: seq<Row>, request: PayoutRequest, lines: seq<Line>) {
    exists i :: 0 <= i < |lines| && Conflicts(ledger, request, lines[i])
  }

  /** The PENDING rows for those lines that have no row yet. */
  function Missing(ledger: seq<Row>, request: PayoutRequest, lines: seq<Line>): seq<Row> {
    if lines == [] then []
    else
      var l := lines[|lines| - 1];
      var before := Missing(ledger, request, lines[..|lines| - 1]);
      if HasReference(ledger, RefOf(request, l)) then before else before + [RowFor(request, l)]
  }

  /** The ledger after the job's lines have been reserved. */
  function Reserved(ledger: seq<Row>, request: PayoutRequest): seq<Row> {
    ledger + Missing(ledger, request, Lines(request.allocations))
  }

  lemma {:induction false} MissingSplit(ledger: seq<Row>, request: PayoutRequest, a: seq<Line>, b: seq<Line>)
    ensures Missing(ledger, request, a + b) == Missing(ledger, request, a) + Missing(ledger, request, b)
  {
    if b == [] {
      assert a + b == a;
    } else {
      var n := |b| - 1;
      assert (a + b)[..|a + b| - 1] == a + b[..n];
      MissingSplit(ledger, request, a, b[..n]);
    }
  }

  /** When none of the lines has a row yet, every line gets one. */
  lemma {:induction false} MissingAll(ledger: seq<Row>, request: PayoutRequest, lines: seq<Line>)
    requires forall i :: 0 <= i < |lines| ==> !HasReference(ledger, RefOf(request, lines[i]))
    ensures |Missing(ledger, request, lines)| == |lines|
    ensures forall i :: 0 <= i < |lines| ==> Missing(ledger, request, lines)[i] == RowFor(request, lines[i])
  {
    if lines != [] {
      MissingAll(ledger, request, lines[..|lines| - 1]);
    }
  }

  lemma {:induction false} MissingNone(ledger: seq<Row>, request: PayoutRequest, lines: seq<Line>)
    requires forall i :: 0 <= i < |lines| ==> HasReference(ledger, RefOf(request, lines[i]))
    ensures Missing(ledger, request, lines) == []
  {
    if lines != [] {
      MissingNone(ledger, request, lines[..|lines| - 1]);
    }
  }

  lemma {:induction false} MissingMembers(ledger: seq<Row>, request: PayoutRequest, lines: seq<Line>, r: Row)
    ensures r in Missing(ledger, request, lines) <==>
      exists i :: 0 <= i < |lines| && r == RowFor(request, lines[i]) && !HasReference(ledger, RefOf(request, lines[i]))
  {
    if lines != [] {
      var n := |lines| - 1;
      assert lines == lines[..n] + [lines[n]];
      MissingMembers(ledger, request, lines[..n], r);
    }
  }

  /** After a reservation every line of the job has a row. */
  lemma ReservationCovers(ledger: seq<Row>, request: PayoutRequest, i: nat)
    requires i < |Lines(request.allocations)|
    ensures HasReference(Reserved(ledger, request), RefOf(request, Lines(request.allocations)[i]))
  {
    var lines := Lines(request.allocations);
    var after := Reserved(ledger, request);
    if HasReference(ledger, RefOf(request, lines[i])) {
      var k :| 0 <= k < |ledger| && ledger[k].reference == RefOf(request, lines[i]);
      assert after[k].reference == RefOf(request, lines[i]);
    } else {
      MissingMembers(ledger, request, lines, RowFor(request, lines[i]));
      assert RowFor(request, lines[i]) in after;
      var k :| 0 <= k < |after| && after[k] == RowFor(request, lines[i]);
      assert after[k].reference == RefOf(request, lines[i]);
    }
  }

  /** `later` may have more rows than `ledger` and other statuses, but has lost and re-addressed none. */
  predicate Extends(later: seq<Row>, ledger: seq<Row>) {
    && |ledger| <= |later|
    && forall i :: 0 <= i < |ledger| ==> later[i] == ledger[i].(status := later[i].status)
  }

  /** Reserving again, at any later time and whatever results were persisted since, adds nothing. */
  lemma ReservationIsIdempotent(ledger: seq<Row>, request: PayoutRequest, later: seq<Row>)
    requires Extends(later, Reserved(ledger, request))
    ensures Reserved(later, request) == later
  {
    var lines := Lines(request.allocations);
    var once := Reserved(ledger, request);
    forall i | 0 <= i < |lines| ensures HasReference(later, RefOf(request, lines[i])) {
      ReservationCovers(ledger, request, i);
      var k :| 0 <= k < |once| && once[k].reference == RefOf(request, lines[i]);
      assert later[k].reference == RefOf(request, lines[i]);
    }
    MissingNone(later, request, lines);
  }

  lemma FindRowUnique(ledger: seq<Row>, k: nat)
    requires UniqueReferences(ledger) && k < |ledger|
    ensures FindRow(ledger, ledger[k].reference) == Some(ledger[k])
  {
    var found := FindRow(ledger, ledger[k].reference);
    assert HasReference(ledger, ledger[k].reference);
    var m :| 0 <= m < |ledger| && ledger[m] == found.value;
    assert m == k;
  }

  /** The row a reservation leaves behind for each of its lines agrees with the line. */
  lemma ReservedRowAgrees(ledger: seq<Row>, request: PayoutRequest, i: nat, k: nat)
    requires WellFormed(request) && UniqueReferences(ledger)
    requires !Conflicting(ledger, request, Lines(request.allocations))
    requires i < |Lines(request.allocations)| && k < |Reserved(ledger, request)|
    requires Reserved(ledger, request)[k].reference == RefOf(request, Lines(request.allocations)[i])
    ensures Agrees(Reserved(ledger, request)[k], request, Lines(request.allocations)[i])
  {
    var lines := Lines(request.allocations);
    var once := Reserved(ledger, request);
    if k < |ledger| {
      FindRowUnique(ledger, k);
      assert !Conflicts(ledger, request, lines[i]);
    } else {
      assert once[k] in Missing(ledger, request, lines);
      MissingMembers(ledger, request, lines, once[k]);
      LinesDistinct(request.allocations);
    }
  }

  /** Nor does it then fail: the rows it finds are its own. */
  lemma ReservationNeverConflictsLater(ledger: seq<Row>, request: PayoutRequest, later: seq<Row>)
    requires WellFormed(request) && UniqueReferences(later)
    requires !Conflicting(ledger, request, Lines(request.allocations))
    requires Extends(later, Reserved(ledger, request))
    ensures !Conflicting(later, request, Lines(request.allocations))
  {
    var lines := Lines(request.allocations);
    var once := Reserved(ledger, request);
    assert UniqueReferences(ledger) by {
      assert forall i :: 0 <= i < |ledger| ==> ledger[i].reference == later[i].reference;
    }
    forall i | 0 <= i < |lines| ensures !Conflicts(later, request, lines[i]) {
      ReservationCovers(ledger, request, i);
      var k :| 0 <= k < |once| && once[k].reference == RefOf(request, lines[i]);
      ReservedRowAgrees(ledger, request, i, k);
      FindRowUnique(later, k);
    }
  }

  /** Any number of reservations, with any result persistence between them, is one reservation. */
  lemma RetriesReserveOnce(
    ledger: seq<Row>, request: PayoutRequest, between: seq<seq<Transaction>>)
    ensures Reserved(PersistEach(Reserved(ledger, request), request, between), request)
      == PersistEach(Reserved(ledger, request), request, between)
  {
    PersistEachExtends(Reserved(ledger, request), request, between);
    ReservationIsIdempotent(ledger, request, PersistEach(Reserved(ledger, request), request, between));
  }

  /** A retry history: reserve, then fold in a response, for each response in turn. */
  function PersistEach(ledger: seq<Row>, request: PayoutRequest, responses: seq<seq<Transaction>>): seq<Row> {
    if responses == [] then ledger
    else
      var before := PersistEach(ledger, request, responses[..|responses| - 1]);
      Persisted(Reserved(before, request), request.batch, responses[|responses| - 1])
  }

  lemma {:induction false} PersistEachExtends(ledger: seq<Row>, request: PayoutRequest,
                                              responses: seq<seq<Transaction>>)
    ensures Extends(PersistEach(ledger, request, responses), ledger)
  {
    if responses != [] {
      PersistEachExtends(ledger, request, responses[..|responses| - 1]);
    }
  }

  lemma FreshLinesMissing(ledger: seq<Row>, request: PayoutRequest)
    requires FreshRun(ledger, request)
    ensures var lines := Lines(request.allocations);
      && Missing(ledger, request, lines) == seq(|lines|, i requires 0 <= i < |lines| => RowFor(request, lines[i]))
      && !Conflicting(ledger, request, lines)
  {
    var lines := Lines(request.allocations);
    forall i | 0 <= i < |lines| ensures !HasReference(ledger, RefOf(request, lines[i])) {
    }
    MissingAll(ledger, request, lines);
  }

  /** The run's reference and the batch id have not been used in the ledger. */
  predicate FreshRun(ledger: seq<Row>, request: PayoutRequest) {
    && (forall i :: 0 <= i < |ledger| && ledger[i].reference.PayoutShare? ==> ledger[i].reference.run != request.run)
    && (forall i :: 0 <= i < |ledger| ==> ledger[i].batch != Some(request.batch))
  }

  /** The rows reserved for a provider add up to the amount PayOS is asked to pay it: the figure the
      response is later compared with. */
  lemma ReservedRowsMatchItem(ledger: seq<Row>, request: PayoutRequest, k: nat)
    requires WellFormed(request) && Allocated(request) && FreshRun(ledger, request)
    requires k < |request.items|
    ensures Requested(Reserved(ledger, request), request.batch, request.items[k].provider) == request.items[k].amount
  {
    var lines := Lines(request.allocations);
    var item := request.items[k];
    assert ItemAllocated(request, item);
    var a := AllocationIndex(request.allocations, item.provider);
    FreshLinesMissing(ledger, request);
    var rows := Missing(ledger, request, lines);
    var w := AmountIn(request.batch, item.provider);
    TotalAppend(ledger, rows, w);
    TotalZero(ledger, w);
    TotalCongruent(rows, lines, w, LineTo(item.provider));
    LinesToProvider(request.allocations, a);
  }
}
