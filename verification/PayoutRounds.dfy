/** What one attempt at a job, and one round of the worker, make of the database, the queue and PayOS. */
module PayoutRounds {
  import opened Sums
  import opened Ledger
  import opened PayoutResults
  import opened PayoutJobs
  import opened Reservation
  import opened RetryQueue
  import opened ExactlyOnce
  import opened LedgerStore

  // The service's whole state: ledger and batches in the database, the Redis queue, and PayOS's batches.
  datatype Till = Till(ledger: seq<Row>, batches: map<Id, Batch>, redis: Redis, openings: seq<Opening>)

  // What the outside world does during one attempt: the id PayOS would give a new batch, whether its
  // answers arrive before the timeout, the payout it reports, and which providers can be notified.
  datatype Attempt = Attempt(newId: Id, createAnswered: bool, report: Option<Payout>, reachable: set<Id>)

  // How an attempt leaves things: `job` is the worker's copy, with what it has learned.
  datatype Tried = Tried(till: Till, job: Job, ok: bool)

  function Notifying(r: Redis, batch: Id, providers: seq<Id>): Redis {
    if providers == [] then r else Enqueued(r, NotificationJob(batch, providers, 0))
  }

  /** A PayOS response folded in, and the providers it pays queued for notification. */
  function ResultsIn(t: Till, batch: Id, payout: Payout): Till {
    if batch !in t.batches then t
    else t.(
      ledger := Persisted(t.ledger, batch, payout.transactions),
      batches := t.batches[batch := Batch(payout.id, payout.approvalState)],
      redis := Notifying(t.redis, batch, NotifiedBy(t.ledger, batch, payout.transactions)))
  }

  function WithReservation(t: Till, q: PayoutRequest): Till {
    t.(ledger := Reserved(t.ledger, q), batches := WithBatch(t.batches, q))
  }

  /** Reserve, then create at PayOS unless that has happened, then fold in the report. */
  function PayoutTried(t: Till, raw: Job, a: Attempt): Tried
    requires raw.PayoutJob?
  {
    var q := raw.request;
    if !Reservable(t.ledger, t.batches, q, raw.payoutId) then Tried(t, raw, false)
    else
      var reserved := WithReservation(t, q);
      if raw.payoutId.None? then
        var asked := reserved.(openings := Opened(t.openings, raw, a.newId));
        if !a.createAnswered then Tried(asked, raw, false)
        else Reported(asked, raw.(payoutId := BatchFor(asked.openings, q.idempotencyKey)), a)
      else Reported(reserved, raw, a)
  }

  function Reported(t: Till, job: Job, a: Attempt): Tried
    requires job.PayoutJob?
  {
    if a.report.None? then Tried(t, job, false)
    else Tried(ResultsIn(t, job.request.batch, a.report.value), job, true)
  }

  function JobTried(t: Till, raw: Job, a: Attempt): Tried {
    match raw
    case NotificationJob(_, providers, _) =>
      var failed := Failed(providers, a.reachable);
      if failed == [] then Tried(t, raw, true) else Tried(t, raw.(providers := failed), false)
    case PayoutJob(_, _, _, _) => PayoutTried(t, raw, a)
  }

  function Unsure(batch: Id): Row -> bool {
    (row: Row) => InBatch(row, batch) && (row.status.PENDING? || row.status.PROCESSING?)
  }

  function MarkedUnknown(t: Till, batch: Id): Till {
    t.(ledger := UpdateStatus(t.ledger, Unsure(batch), UNKNOWN),
       batches := if batch in t.batches then t.batches[batch := t.batches[batch].(status := PROCESSING_BATCH)]
                  else t.batches)
  }

  /** A job taken from the queue is acknowledged if the attempt went through, else its batch is marked and the
      job goes back. */
  function Handled(t: Till, raw: Job, a: Attempt): Till {
    var tried := JobTried(t, raw, a);
    if tried.ok then tried.till.(redis := Acknowledged(tried.till.redis, raw))
    else
      var marked := if raw.PayoutJob? then MarkedUnknown(tried.till, raw.request.batch) else tried.till;
      marked.(redis := Requeued(marked.redis, raw, tried.job))
  }

  function Taken(t: Till): Till {
    t.(redis := Dequeued(t.redis))
  }

  /** Job after job while they go through. */
  function JobsHandled(t: Till, attempts: seq<Attempt>): Till
    decreases |attempts|
  {
    if attempts == [] || t.redis.queue == [] then t
    else
      var raw := t.redis.queue[|t.redis.queue| - 1];
      var next := Handled(Taken(t), raw, attempts[0]);
      if JobTried(Taken(t), raw, attempts[0]).ok then JobsHandled(next, attempts[1..]) else next
  }

  lemma OneMoreHandled(t: Till, a: Attempt, rest: seq<Attempt>)
    requires t.redis.queue != []
    ensures var raw := t.redis.queue[|t.redis.queue| - 1];
      JobsHandled(t, [a] + rest)
      == if JobTried(Taken(t), raw, a).ok then JobsHandled(Handled(Taken(t), raw, a), rest)
         else Handled(Taken(t), raw, a)
  {
    assert ([a] + rest)[1..] == rest;
  }

  /** One batch left PROCESSING is asked about again. */
  function BatchReconciled(t: Till, report: (Id, Option<Payout>)): Till {
    if report.0 in t.batches && t.batches[report.0].status == PROCESSING_BATCH && report.1.Some?
    then ResultsIn(t, report.0, report.1.value)
    else t
  }

  /** A round: in-flight jobs recovered, batches reconciled, then the queue. */
  function RoundDone(t: Till, reports: seq<(Id, Option<Payout>)>, attempts: seq<Attempt>): Till {
    JobsHandled(Folded(BatchReconciled, t.(redis := Recovered(t.redis)), reports), attempts)
  }

  // ---- What an attempt can and cannot do --------------------------------------

  /** PayOS is asked to open a batch only for a job whose every line is on the ledger by then, and the ledger
      rows outlive whatever else the attempt does. */
  lemma OpenedOnlyWhenReserved(t: Till, raw: Job, a: Attempt, i: nat)
    requires raw.PayoutJob? && PayoutTried(t, raw, a).till.openings != t.openings
    requires i < |Lines(raw.request.allocations)|
    ensures raw.payoutId.None? && Reservable(t.ledger, t.batches, raw.request, None)
    ensures HasReference(PayoutTried(t, raw, a).till.ledger, RefOf(raw.request, Lines(raw.request.allocations)[i]))
  {
    ReservationCovers(t.ledger, raw.request, i);
    var r := RefOf(raw.request, Lines(raw.request.allocations)[i]);
    var reserved := Reserved(t.ledger, raw.request);
    var k :| 0 <= k < |reserved| && reserved[k].reference == r;
    assert PayoutTried(t, raw, a).till.ledger[k].reference == r;
  }

  /** A failed attempt leaves at most the reservation behind: no results, no notification. */
  lemma FailedAttemptOnlyReserves(t: Till, raw: Job, a: Attempt)
    requires raw.PayoutJob? && !PayoutTried(t, raw, a).ok
    ensures var after := PayoutTried(t, raw, a).till;
      after.redis == t.redis && (after.ledger == t.ledger || after.ledger == Reserved(t.ledger, raw.request))
  {
  }

  /** Whatever a round does, no ledger row is lost or changed but for its status. */
  lemma AttemptExtends(t: Till, raw: Job, a: Attempt)
    ensures Extends(Handled(t, raw, a).ledger, t.ledger)
  {
    if raw.PayoutJob? {
      TriedExtends(t, raw, a);
    }
  }

  lemma TriedExtends(t: Till, raw: Job, a: Attempt)
    requires raw.PayoutJob?
    ensures Extends(PayoutTried(t, raw, a).till.ledger, t.ledger)
  {
    assert Extends(Reserved(t.ledger, raw.request), t.ledger);
  }

  lemma {:induction false} ReconciliationExtends(t: Till, reports: seq<(Id, Option<Payout>)>)
    ensures Extends(Folded(BatchReconciled, t, reports).ledger, t.ledger)
  {
    if reports != [] {
      ReconciliationExtends(t, reports[..|reports| - 1]);
    }
  }

  lemma {:induction false} JobsExtend(t: Till, attempts: seq<Attempt>)
    ensures Extends(JobsHandled(t, attempts).ledger, t.ledger)
    decreases |attempts|
  {
    if attempts != [] && t.redis.queue != [] {
      var raw := t.redis.queue[|t.redis.queue| - 1];
      AttemptExtends(Taken(t), raw, attempts[0]);
      JobsExtend(Handled(Taken(t), raw, attempts[0]), attempts[1..]);
    }
  }

  /** Over a whole round every ledger row stays, with its reference, invoice and amount. */
  lemma RoundKeepsEveryRow(t: Till, reports: seq<(Id, Option<Payout>)>, attempts: seq<Attempt>)
    ensures Extends(RoundDone(t, reports, attempts).ledger, t.ledger)
  {
    var recovered := t.(redis := Recovered(t.redis));
    ReconciliationExtends(recovered, reports);
    JobsExtend(Folded(BatchReconciled, recovered, reports), attempts);
  }
}
