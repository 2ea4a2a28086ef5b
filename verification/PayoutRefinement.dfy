/** The service against the money machine: what the worker and the scheduler do to the database and PayOS are
    runs of that machine, so they keep its safety. */
module PayoutRefinement {
  import opened Sums
  import opened Ledger
  import opened PayoutResults
  import opened PayoutJobs
  import opened Reservation
  import opened RetryQueue
  import opened ExactlyOnce
  import opened LedgerStore
  import opened PayoutRounds
  import opened PayoutsService
  import MM = MoneyMachine
  import MoneySafety
  import AmountChain
  import MoneyLimits

  function Keys(openings: seq<Opening>): set<Id> {
    set i | 0 <= i < |openings| :: openings[i].key
  }

  /** The machine and the service agree on the ledger and on what PayOS has opened, and every payout job in the
      queue is one the machine knows; one that carries a payout id has been reserved and created. */
  ghost predicate Mirrors(w: MM.World, t: Till) {
    && w.ledger == t.ledger
    && w.created == Keys(t.openings)
    && forall job :: job in Held(t.redis) ==> Known(w, job)
  }

  predicate Known(w: MM.World, job: Job) {
    job.PayoutJob? ==>
      && (job.request in w.pending || job.request in w.reserved)
      && (job.payoutId.Some? ==> job.request in w.reserved && job.request.idempotencyKey in w.created)
  }

  /** PayOS reports truthfully on a job that is reserved by then. */
  predicate HonestReport(w: MM.World, q: PayoutRequest, report: Option<Payout>) {
    report.Some? ==> MM.Honest(MM.Apply(w, MM.Reserve(q)), q, report.value.transactions)
  }

  lemma OpenedKeys(openings: seq<Opening>, job: Job, newId: Id)
    requires job.PayoutJob?
    ensures Keys(Opened(openings, job, newId)) == Keys(openings) + {job.request.idempotencyKey}
  {
    var key := job.request.idempotencyKey;
    var after := Opened(openings, job, newId);
    if OpeningIndex(openings, key) < |openings| {
      assert openings[OpeningIndex(openings, key)].key == key;
    } else {
      assert after[|openings|].key == key;
      assert forall i :: 0 <= i < |openings| ==> after[i] == openings[i];
    }
  }

  lemma RunStarts(w: MM.World, e: MM.Event, rest: seq<MM.Event>)
    requires MM.Enabled(w, e) && MM.Runs(MM.Apply(w, e), rest)
    ensures MM.Runs(w, [e] + rest)
    ensures MM.After(w, [e] + rest) == MM.After(MM.Apply(w, e), rest)
  {
    assert ([e] + rest)[1..] == rest;
  }

  lemma UnknownIsMarkUnknown(w: MM.World, t: Till, batch: Id)
    requires w.ledger == t.ledger
    ensures MM.Apply(w, MM.MarkUnknown(batch)).ledger == MarkedUnknown(t, batch).ledger
  {
  }

  lemma TriedLedger(t: Till, raw: Job, a: Attempt)
    requires raw.PayoutJob? && Reservable(t.ledger, t.batches, raw.request, raw.payoutId)
    ensures var tried := PayoutTried(t, raw, a);
      var reserved := Reserved(t.ledger, raw.request);
      && (tried.ok ==> a.report.Some?)
      && (tried.ok ==> tried.till.ledger == Persisted(reserved, raw.request.batch, a.report.value.transactions))
      && (!tried.ok ==> tried.till.ledger == reserved)
      && tried.till.openings == if raw.payoutId.None? then Opened(t.openings, raw, a.newId) else t.openings
  {
  }

  lemma HandledLedger(t: Till, raw: Job, a: Attempt)
    requires raw.PayoutJob?
    ensures var tried := PayoutTried(t, raw, a);
      && Handled(t, raw, a).openings == tried.till.openings
      && Handled(t, raw, a).ledger
         == if tried.ok then tried.till.ledger else MarkedUnknown(tried.till, raw.request.batch).ledger
  {
  }

  /** The events of one attempt. */
  function EventsOf(t: Till, raw: Job, a: Attempt): seq<MM.Event>
    requires raw.PayoutJob?
  {
    var q := raw.request;
    if !Reservable(t.ledger, t.batches, q, raw.payoutId) then [MM.MarkUnknown(q.batch)] + []
    else
      var last :=
        if PayoutTried(t, raw, a).ok then MM.Persist(q, a.report.value.transactions) else MM.MarkUnknown(q.batch);
      [MM.Reserve(q)] + ([MM.Create(q)] + ([last] + []))
  }

  /** An attempt at a payout job is a run of the machine: reserve, create, then persist or mark unknown. */
  lemma AttemptRuns(w: MM.World, t: Till, raw: Job, a: Attempt)
    requires w.ledger == t.ledger && w.created == Keys(t.openings)
    requires raw.PayoutJob? && Known(w, raw) && HonestReport(w, raw.request, a.report)
    ensures MM.Runs(w, EventsOf(t, raw, a))
    ensures MM.After(w, EventsOf(t, raw, a)).ledger == Handled(t, raw, a).ledger
    ensures MM.After(w, EventsOf(t, raw, a)).created == Keys(Handled(t, raw, a).openings)
  {
    var q := raw.request;
    HandledLedger(t, raw, a);
    if Reservable(t.ledger, t.batches, q, raw.payoutId) {
      ReservedAttemptRuns(w, t, raw, a);
    } else {
      UnknownIsMarkUnknown(w, t, q.batch);
      RunStarts(w, MM.MarkUnknown(q.batch), []);
    }
  }

  lemma ReservedAttemptRuns(w: MM.World, t: Till, raw: Job, a: Attempt)
    requires w.ledger == t.ledger && w.created == Keys(t.openings)
    requires raw.PayoutJob? && Known(w, raw) && HonestReport(w, raw.request, a.report)
    requires Reservable(t.ledger, t.batches, raw.request, raw.payoutId)
    ensures MM.Runs(w, EventsOf(t, raw, a))
    ensures MM.After(w, EventsOf(t, raw, a)).ledger == Handled(t, raw, a).ledger
    ensures MM.After(w, EventsOf(t, raw, a)).created == Keys(Handled(t, raw, a).openings)
  {
    var q := raw.request;
    var w1 := MM.Apply(w, MM.Reserve(q));
    var w2 := MM.Apply(w1, MM.Create(q));
    var tried := PayoutTried(t, raw, a);
    HandledLedger(t, raw, a);
    TriedLedger(t, raw, a);
    OpenedKeys(t.openings, raw, a.newId);
    if tried.ok {
      LastRuns(w, w1, w2, q, MM.Persist(q, a.report.value.transactions));
    } else {
      UnknownIsMarkUnknown(w2, tried.till, q.batch);
      LastRuns(w, w1, w2, q, MM.MarkUnknown(q.batch));
    }
  }

  lemma LastRuns(w: MM.World, w1: MM.World, w2: MM.World, q: PayoutRequest, last: MM.Event)
    requires q in w.pending || q in w.reserved
    requires w1 == MM.Apply(w, MM.Reserve(q)) && w2 == MM.Apply(w1, MM.Create(q)) && MM.Enabled(w2, last)
    ensures var events := [MM.Reserve(q)] + ([MM.Create(q)] + ([last] + []));
      MM.Runs(w, events) && MM.After(w, events) == MM.Apply(w2, last)
  {
    RunStarts(w2, last, []);
    RunStarts(w1, MM.Create(q), [last] + []);
    RunStarts(w, MM.Reserve(q), [MM.Create(q)] + ([last] + []));
  }

  // ---- The queue keeps to jobs the machine knows --------------------------------

  /** Jobs known before an attempt are known after it. */
  predicate KnowsMore(w: MM.World, after: MM.World) {
    && (forall q :: q in w.pending ==> q in after.pending || q in after.reserved)
    && (forall q :: q in w.reserved ==> q in after.reserved)
    && w.created <= after.created
  }

  lemma ReserveKnowsMore(w: MM.World, q: PayoutRequest)
    ensures KnowsMore(w, MM.Apply(w, MM.Reserve(q)))
    ensures q in MM.Apply(w, MM.Reserve(q)).reserved
  {
    var after := MM.Apply(w, MM.Reserve(q));
    forall p | p in w.pending && p != q ensures p in after.pending {
      MoneyLimits.WithoutKeepsOther(w.pending, q, p);
    }
  }

  lemma AttemptKnowsMore(w: MM.World, t: Till, raw: Job, a: Attempt)
    requires w.ledger == t.ledger && w.created == Keys(t.openings)
    requires raw.PayoutJob? && Known(w, raw) && HonestReport(w, raw.request, a.report)
    ensures KnowsMore(w, MM.After(w, EventsOf(t, raw, a)))
    ensures Known(MM.After(w, EventsOf(t, raw, a)), Retried(PayoutTried(t, raw, a).job))
  {
    var q := raw.request;
    if Reservable(t.ledger, t.batches, q, raw.payoutId) {
      var w1 := MM.Apply(w, MM.Reserve(q));
      var w2 := MM.Apply(w1, MM.Create(q));
      var last :=
        if PayoutTried(t, raw, a).ok then MM.Persist(q, a.report.value.transactions) else MM.MarkUnknown(q.batch);
      ReserveKnowsMore(w, q);
      LastRuns(w, w1, w2, q, last);
      assert KnowsMore(w1, MM.Apply(w2, last));
    } else {
      RunStarts(w, MM.MarkUnknown(q.batch), []);
    }
  }

  lemma HandledHolds(t: Till, raw: Job, a: Attempt, job: Job)
    requires job in Held(Handled(t, raw, a).redis)
    ensures job in Held(t.redis) || job.NotificationJob? || job == Retried(JobTried(t, raw, a).job)
  {
    var tried := JobTried(t, raw, a);
    assert forall x :: x in Held(tried.till.redis) ==> x in Held(t.redis) || x.NotificationJob?;
    RemoveMembers(tried.till.redis.processing, raw);
  }

  /** An attempt at any job keeps the service and the machine in step, by a run of the machine. */
  lemma AttemptRefines(w: MM.World, t: Till, raw: Job, a: Attempt) returns (events: seq<MM.Event>)
    requires Mirrors(w, t) && Known(w, raw)
    requires raw.PayoutJob? ==> HonestReport(w, raw.request, a.report)
    ensures MM.Runs(w, events) && Mirrors(MM.After(w, events), Handled(t, raw, a))
    ensures events == if raw.PayoutJob? then EventsOf(t, raw, a) else []
  {
    if raw.PayoutJob? {
      events := EventsOf(t, raw, a);
      AttemptRuns(w, t, raw, a);
      AttemptKnowsMore(w, t, raw, a);
    } else {
      events := [];
    }
    var after := MM.After(w, events);
    forall job | job in Held(Handled(t, raw, a).redis) ensures Known(after, job) {
      HandledHolds(t, raw, a, job);
    }
  }

  // ---- A whole round ----------------------------------------------------------

  lemma {:induction false} RunsAppend(w: MM.World, a: seq<MM.Event>, b: seq<MM.Event>)
    requires MM.Runs(w, a) && MM.Runs(MM.After(w, a), b)
    ensures MM.Runs(w, a + b) && MM.After(w, a + b) == MM.After(MM.After(w, a), b)
    decreases |a|
  {
    if a == [] {
      assert a + b == b;
    } else {
      assert (a + b)[1..] == a[1..] + b;
      RunsAppend(MM.Apply(w, a[0]), a[1..], b);
    }
  }

  /** PayOS's answer on a batch concerns a reserved job it has opened a batch for, and is truthful. */
  ghost predicate HonestAnswer(w: MM.World, t: Till, report: (Id, Option<Payout>)) {
    BatchReconciled(t, report) != t ==>
      exists q :: q in w.reserved && q.batch == report.0 && q.idempotencyKey in w.created
        && MM.Honest(w.(ledger := t.ledger), q, report.1.value.transactions)
  }

  ghost predicate HonestAnswers(w: MM.World, t: Till, reports: seq<(Id, Option<Payout>)>) {
    forall i :: 0 <= i < |reports| ==> HonestAnswer(w, Folded(BatchReconciled, t, reports[..i]), reports[i])
  }

  /** Folding in one answer is one persist step. */
  lemma AnswerRefines(w: MM.World, t: Till, report: (Id, Option<Payout>)) returns (events: seq<MM.Event>)
    requires Mirrors(w, t) && HonestAnswer(w, t, report)
    ensures MM.Runs(w, events) && Mirrors(MM.After(w, events), BatchReconciled(t, report))
    ensures MM.After(w, events) == w.(ledger := BatchReconciled(t, report).ledger)
  {
    var after := BatchReconciled(t, report);
    if after == t {
      events := [];
      assert w.(ledger := t.ledger) == w;
    } else {
      var q :| q in w.reserved && q.batch == report.0 && q.idempotencyKey in w.created
        && MM.Honest(w.(ledger := t.ledger), q, report.1.value.transactions);
      assert w.(ledger := t.ledger) == w;
      var e := MM.Persist(q, report.1.value.transactions);
      RunStarts(w, e, []);
      events := [e] + [];
      assert MM.After(w, events) == MM.Apply(w, e);
      assert forall job :: job in Held(after.redis) ==> job in Held(t.redis) || job.NotificationJob?;
    }
  }

  lemma {:induction false} AnswersRefine(w: MM.World, t: Till, reports: seq<(Id, Option<Payout>)>)
    returns (events: seq<MM.Event>)
    requires Mirrors(w, t) && HonestAnswers(w, t, reports)
    ensures MM.Runs(w, events)
    ensures Mirrors(MM.After(w, events), Folded(BatchReconciled, t, reports))
    ensures MM.After(w, events) == w.(ledger := Folded(BatchReconciled, t, reports).ledger)
  {
    if reports == [] {
      events := [];
    } else {
      var n := |reports| - 1;
      forall i | 0 <= i < n ensures HonestAnswer(w, Folded(BatchReconciled, t, reports[..n][..i]), reports[..n][i]) {
        assert reports[..n][..i] == reports[..i];
      }
      var before := AnswersRefine(w, t, reports[..n]);
      var so := Folded(BatchReconciled, t, reports[..n]);
      assert HonestAnswer(w, so, reports[n]);
      assert MM.After(w, before).(ledger := so.ledger) == w.(ledger := so.ledger);
      var last := AnswerRefines(MM.After(w, before), so, reports[n]);
      RunsAppend(w, before, last);
      events := before + last;
    }
  }

  /** Every report the attempts receive is truthful when it arrives. */
  ghost predicate HonestJobs(w: MM.World, t: Till, attempts: seq<Attempt>)
    decreases |attempts|
  {
    attempts == [] || t.redis.queue == []
    || (var raw := t.redis.queue[|t.redis.queue| - 1];
        && (raw.PayoutJob? ==> HonestReport(w, raw.request, attempts[0].report))
        && (JobTried(Taken(t), raw, attempts[0]).ok ==>
              HonestJobs(if raw.PayoutJob? then MM.After(w, EventsOf(Taken(t), raw, attempts[0])) else w,
                         Handled(Taken(t), raw, attempts[0]), attempts[1..])))
  }

  lemma TakenMirrors(w: MM.World, t: Till)
    requires Mirrors(w, t) && t.redis.queue != []
    ensures Mirrors(w, Taken(t)) && Known(w, t.redis.queue[|t.redis.queue| - 1])
  {
    assert t.redis.queue[|t.redis.queue| - 1] in Held(t.redis);
    assert forall job :: job in Held(Taken(t).redis) ==> job in Held(t.redis);
  }

  lemma {:induction false} JobsRefine(w: MM.World, t: Till, attempts: seq<Attempt>) returns (events: seq<MM.Event>)
    requires Mirrors(w, t) && HonestJobs(w, t, attempts)
    ensures MM.Runs(w, events) && Mirrors(MM.After(w, events), JobsHandled(t, attempts))
    decreases |attempts|
  {
    events := [];
    if attempts != [] && t.redis.queue != [] {
      var raw := t.redis.queue[|t.redis.queue| - 1];
      TakenMirrors(w, t);
      events := AttemptRefines(w, Taken(t), raw, attempts[0]);
      if JobTried(Taken(t), raw, attempts[0]).ok {
        var rest := JobsRefine(MM.After(w, events), Handled(Taken(t), raw, attempts[0]), attempts[1..]);
        RunsAppend(w, events, rest);
        events := events + rest;
      }
    }
  }

  /** A whole worker round, recovery, reconciliation and up to ten jobs with any mix of failures, leaves the
      service in step with a machine state in which the money is safe: no invoice is debited past its
      credit. */
  lemma RoundStaysSolvent(w: MM.World, t: Till, reports: seq<(Id, Option<Payout>)>, attempts: seq<Attempt>)
    returns (after: MM.World)
    requires MM.Inv(w) && Mirrors(w, t)
    requires var recovered := t.(redis := Recovered(t.redis));
      var reconciled := Folded(BatchReconciled, recovered, reports);
      HonestAnswers(w, recovered, reports) && HonestJobs(w.(ledger := reconciled.ledger), reconciled, attempts)
    ensures MM.Inv(after) && Mirrors(after, RoundDone(t, reports, attempts))
    ensures var ledger := RoundDone(t, reports, attempts).ledger;
      forall x: Id :: Debit(ledger, x) <= Credit(ledger, x)
  {
    var recovered := t.(redis := Recovered(t.redis));
    var reconciled := Folded(BatchReconciled, recovered, reports);
    assert Mirrors(w, recovered);
    var first := AnswersRefine(w, recovered, reports);
    MoneySafety.RunsKeep(w, first);
    var middle := MM.After(w, first);
    var second := JobsRefine(middle, reconciled, attempts);
    MoneySafety.RunsKeep(middle, second);
    after := MM.After(middle, second);
    forall x: Id ensures Debit(after.ledger, x) <= Credit(after.ledger, x) {
      MoneySafety.InvSolvent(after, x);
    }
  }

  /** The machine knows the new job, and still every other. */
  lemma ScheduledJobKnown(w: MM.World, t: Till, e: MM.Event, job: Job)
    requires Mirrors(w, t) && e.Schedule? && job.PayoutJob? && job.request == MM.Scheduled(w, e) && job.payoutId.None?
    ensures var after := MM.Apply(MM.Apply(w, e), MM.Reserve(job.request));
      && job.request in MM.Apply(w, e).pending
      && forall x :: x in Held(Enqueued(t.redis, job)) ==> Known(after, x)
  {
    var w1 := MM.Apply(w, e);
    assert w1.pending[|w.pending|] == job.request;
    ReserveKnowsMore(w1, job.request);
    assert KnowsMore(w, w1);
    var after := MM.Apply(w1, MM.Reserve(job.request));
    forall x | x in Held(Enqueued(t.redis, job)) ensures Known(after, x) {
      assert x in Held(t.redis) || x == job;
    }
  }

  /** A scheduled run that has something to pay always gets its reservation, and is the machine's schedule and
      reserve steps. */
  lemma ScheduledRunRefines(w: MM.World, t: Till, profiles: map<Id, Profile>, uuid: Id, batch: Id, run: Id)
    returns (events: seq<MM.Event>)
    requires MM.Inv(w) && Mirrors(w, t) && MM.Unused(w, batch, run) && batch !in t.batches
    requires Prepared(t.ledger, w.invoices, profiles, batch, run).Success?
    requires Prepared(t.ledger, w.invoices, profiles, batch, run).value.Some?
    requires MM.NoUnreservedClaim(w, Prepared(t.ledger, w.invoices, profiles, batch, run).value.value)
    ensures var request := Prepared(t.ledger, w.invoices, profiles, batch, run).value.value;
      var queued := t.(redis := Enqueued(t.redis, PayoutJob(uuid, request, None, 0)));
      && Reservable(t.ledger, t.batches, request, None)
      && MM.Runs(w, events) && Mirrors(MM.After(w, events), WithReservation(queued, request))
  {
    var request := Prepared(t.ledger, w.invoices, profiles, batch, run).value.value;
    var e := MM.Schedule(profiles, batch, run);
    assert MM.Scheduled(w, e) == request;
    AmountChain.ScheduledJobIsReservable(w, e, t.batches);
    ScheduledJobKnown(w, t, e, PayoutJob(uuid, request, None, 0));
    RunStarts(MM.Apply(w, e), MM.Reserve(request), []);
    RunStarts(w, e, [MM.Reserve(request)] + []);
    events := [e] + ([MM.Reserve(request)] + []);
  }
}
