/** The payout service itself: a database, a Redis queue and PayOS, and the loops that drive them. */
module PayoutsService {
  import opened Sums
  import opened Ledger
  import opened PayoutResults
  import opened PayoutJobs
  import opened Reservation
  import opened RetryQueue
  import opened ExactlyOnce
  import opened LedgerStore
  import opened PayoutRounds

  const PAYOUT_RETRY_BATCH_SIZE := 10

  class RedisQueue {
    var queue: seq<Job>
    var processing: seq<Job>
    var dedupe: set<JobId>
    var done: set<JobId>

    constructor ()
      ensures Contents() == EMPTY
    {
      queue, processing, dedupe, done := [], [], {}, {};
    }

    function Contents(): Redis
      reads this
    {
      Redis(queue, processing, dedupe, done)
    }

    /** One Lua script: refuse a done or known job id, else mark it and push the job. */
    method EnqueueRetry(job: Job) returns (inserted: bool)
      modifies this
      ensures inserted == Accepts(old(Contents()), job)
      ensures Contents() == Enqueued(old(Contents()), job)
    {
      if IdOf(job) in done {
        return false;
      }
      if IdOf(job) !in dedupe {
        dedupe := dedupe + {IdOf(job)};
        queue := [job] + queue;
        return true;
      }
      return false;
    }

    method DequeueRetry() returns (raw: Option<Job>)
      modifies this`queue, this`processing
      ensures raw == if old(queue) == [] then None else Some(old(queue)[|old(queue)| - 1])
      ensures Contents() == Dequeued(old(Contents()))
      ensures raw.Some? ==> raw.value in processing
    {
      if queue == [] {
        return None;
      }
      var oldest := queue[|queue| - 1];
      queue := queue[..|queue| - 1];
      processing := [oldest] + processing;
      raw := Some(oldest);
    }

    method AcknowledgeRetry(raw: Job)
      modifies this
      ensures Contents() == Acknowledged(old(Contents()), raw)
    {
      processing := Remove(processing, raw);
      dedupe := dedupe - {IdOf(raw)};
      if raw.NotificationJob? {
        done := done + {IdOf(raw)};
      }
    }

    method RequeueRetry(raw: Job, job: Job)
      modifies this`queue, this`processing
      ensures Contents() == Requeued(old(Contents()), raw, job)
    {
      processing := Remove(processing, raw);
      queue := [job.(attempt := job.attempt + 1)] + queue;
    }

    /** Move the processing list back, oldest first, until it is empty: it lands before the queue in its
        own order, so the queue is drained first. */
    method RecoverInFlightJobs()
      modifies this`queue, this`processing
      ensures processing == [] && queue == old(processing) + old(queue)
      ensures Contents() == Recovered(old(Contents()))
    {
      while processing != []
        invariant processing + queue == old(processing) + old(queue)
        decreases |processing|
      {
        var oldest := processing[|processing| - 1];
        processing := processing[..|processing| - 1];
        queue := [oldest] + queue;
      }
    }
  }

  class PayOs {
    var openings: seq<Opening>

    constructor ()
      ensures openings == []
    {
      openings := [];
    }

    method CreateBatch(job: Job, newId: Id) returns (id: Id)
      requires job.PayoutJob?
      modifies this
      ensures openings == Opened(old(openings), job, newId)
      ensures BatchFor(openings, job.request.idempotencyKey) == Some(id)
    {
      var k := OpeningIndex(openings, job.request.idempotencyKey);
      if k == |openings| {
        openings := openings + [Opening(job.request.idempotencyKey, newId, job.uuid)];
      }
      id := openings[k].batchId;
    }
  }

  method NotifyProviders(providerIds: seq<Id>, reachable: set<Id>) returns (failed: seq<Id>, delivered: seq<Id>)
    ensures failed == Failed(providerIds, reachable)
    ensures delivered == Delivered(providerIds, reachable)
  {
    var unique := Dedup(providerIds);
    failed, delivered := [], [];
    for i := 0 to |unique|
      invariant failed == Filter(unique[..i], Unreached(reachable))
      invariant delivered == Filter(unique[..i], Reached(reachable))
    {
      FilterSnoc(unique[..i], unique[i], Unreached(reachable));
      FilterSnoc(unique[..i], unique[i], Reached(reachable));
      assert unique[..i + 1] == unique[..i] + [unique[i]];
      if unique[i] in reachable {
        delivered := delivered + [unique[i]];
      } else {
        failed := failed + [unique[i]];
      }
    }
    assert unique[..|unique|] == unique;
  }

  method GroupInvoicesByProvider(invoices: seq<EligibleInvoice>) returns (groups: seq<Group>)
    ensures groups == GroupByProvider(invoices)
    ensures Partitions(groups, invoices)
  {
    groups := [];
    for i := 0 to |invoices|
      invariant groups == GroupByProvider(invoices[..i])
    {
      assert invoices[..i + 1][..i] == invoices[..i];
      var k := GroupIndex(groups, invoices[i].provider);
      if k < |groups| {
        groups := groups[k := groups[k].(invoices := groups[k].invoices + [invoices[i]])];
      } else {
        groups := groups + [Group(invoices[i].provider, [invoices[i]])];
      }
    }
    assert invoices[..|invoices|] == invoices;
    GroupingPartitions(invoices);
  }

  /** One pass over the groups: skip providers that cannot be paid, allocate the others. */
  method BuildPayoutRequest(profiles: map<Id, Profile>, groups: seq<Group>, batch: Id, run: Id)
    returns (request: PayoutRequest)
    ensures request == BuildRequest(profiles, groups, batch, run)
  {
    var items: seq<Instruction> := [];
    var invoiceMap: map<Id, seq<Id>> := map[];
    var allocations: seq<Allocation> := [];
    for i := 0 to |groups|
      invariant PayoutRequest(batch, run, run, items, invoiceMap, allocations)
        == BuildRequest(profiles, groups[..i], batch, run)
    {
      var g := groups[i];
      assert groups[..i + 1][..i] == groups[..i];
      assert groups[..i + 1] == groups[..i] + [g];
      BuildStep(profiles, groups[..i], g, batch, run);
      if g.provider !in profiles {
        continue;
      }
      var profile := profiles[g.provider];
      if profile.bin == "" || profile.accountNumber == "" {
        continue;
      }
      var amount := Total(g.invoices, OfferAmount());
      if !SafeInteger(amount) || amount <= 0 {
        continue;
      }
      invoiceMap := invoiceMap[g.provider := InvoiceIds(g.invoices)];
      allocations := allocations + [Allocation(g.provider, FromEntries(Pairs(g.invoices)))];
      items := items + [Instruction(g.provider, amount, profile.bin, profile.accountNumber)];
    }
    assert groups[..|groups|] == groups;
    request := PayoutRequest(batch, run, run, items, invoiceMap, allocations);
  }

  /** What a scheduled run decides from the ledger before it queues anything. */
  function Prepared(ledger: seq<Row>, invoices: map<Id, Invoice>, profiles: map<Id, Profile>, batch: Id, run: Id)
    : Result<Option<PayoutRequest>>
  {
    var request := BuildRequest(profiles, GroupByProvider(Eligible(ledger, invoices)), batch, run);
    if Eligible(ledger, invoices) == [] then Success(None)
    else if request.items == [] then Failure(NoPayableProvider)
    else Success(Some(request))
  }

  predicate HoldsWellFormed(r: Redis) {
    forall i :: 0 <= i < |Held(r)| && Held(r)[i].PayoutJob? ==> WellFormed(Held(r)[i].request)
  }

  lemma HoldsWellFormedMember(r: Redis, job: Job)
    requires HoldsWellFormed(r) && job in Held(r) && job.PayoutJob?
    ensures WellFormed(job.request)
  {
    var i :| 0 <= i < |Held(r)| && Held(r)[i] == job;
  }

  lemma HoldsWellFormedFrom(r: Redis, after: Redis)
    requires HoldsWellFormed(r)
    requires forall job :: job in Held(after) ==>
      job in Held(r) || (job.PayoutJob? ==> WellFormed(job.request))
    ensures HoldsWellFormed(after)
  {
    forall i | 0 <= i < |Held(after)| && Held(after)[i].PayoutJob? ensures WellFormed(Held(after)[i].request) {
      assert Held(after)[i] in Held(after);
      if Held(after)[i] in Held(r) {
        HoldsWellFormedMember(r, Held(after)[i]);
      }
    }
  }

  class Service {
    const store: Store
    const redis: RedisQueue
    const payos: PayOs

    constructor (store: Store, redis: RedisQueue, payos: PayOs)
      ensures this.store == store && this.redis == redis && this.payos == payos
    {
      this.store, this.redis, this.payos := store, redis, payos;
    }

    /** The queue is conserved and every queued request is a proper object. */
    ghost predicate Valid()
      reads redis
    {
      Conserved(redis.Contents()) && HoldsWellFormed(redis.Contents())
    }

    function View(): Till
      reads store, redis, payos
    {
      Till(store.ledger, store.batches, redis.Contents(), payos.openings)
    }

    /** The job a run would queue: none when nothing is payable, an error when nobody can be paid. */
    method PreparePayout(profiles: map<Id, Profile>, batch: Id, run: Id) returns (r: Result<Option<PayoutRequest>>)
      ensures r == Prepared(store.ledger, store.invoices, profiles, batch, run)
      ensures r.Success? && r.value.Some? ==> WellFormed(r.value.value)
    {
      var eligible := store.FindEligibleInvoices();
      if eligible == [] {
        return Success(None);
      }
      var groups := GroupInvoicesByProvider(eligible);
      var request := BuildPayoutRequest(profiles, groups, batch, run);
      BuiltRequestAccepted(profiles, eligible, batch, run);
      if request.items == [] {
        return Failure(NoPayableProvider);
      }
      r := Success(Some(request));
    }

    /** Queue one job for everything payable, then reserve it. */
    method RunScheduledPayout(profiles: map<Id, Profile>, uuid: Id, batch: Id, run: Id) returns (r: Result<bool>)
      requires Valid()
      modifies redis, store`ledger, store`batches
      ensures Valid()
      ensures var prepared := Prepared(old(store.ledger), store.invoices, profiles, batch, run);
        if prepared.Failure? then r == Failure(prepared.error) && View() == old(View())
        else if prepared.value.None? then r == Success(false) && View() == old(View())
        else
          var request := prepared.value.value;
          var queued := old(View()).(redis := Enqueued(old(View()).redis, PayoutJob(uuid, request, None, 0)));
          && (r.Success? <==> Reservable(old(store.ledger), old(store.batches), request, None))
          && View() == if r.Success? then WithReservation(queued, request) else queued
    {
      var prepared := PreparePayout(profiles, batch, run);
      if prepared.Failure? {
        return Failure(prepared.error);
      }
      if prepared.value.None? {
        return Success(false);
      }
      var job := PayoutJob(uuid, prepared.value.value, None, 0);
      QueueJob(job);
      var reserved := store.EnsureBatchReservation(job.request, None);
      match reserved
      case Failure(e) => r := Failure(e);
      case Success(_) => r := Success(true);
    }

    method QueueJob(job: Job)
      requires Valid() && (job.PayoutJob? ==> WellFormed(job.request))
      modifies redis
      ensures Valid() && redis.processing == old(redis.processing)
      ensures redis.Contents() == Enqueued(old(redis.Contents()), job)
    {
      ghost var before := redis.Contents();
      EnqueueConserves(before, job);
      var inserted := redis.EnqueueRetry(job);
      HoldsWellFormedFrom(before, redis.Contents());
    }

    method QueueNotification(batch: Id, providerIds: seq<Id>)
      requires Valid()
      modifies redis
      ensures Valid() && redis.processing == old(redis.processing)
      ensures redis.Contents() == Notifying(old(redis.Contents()), batch, providerIds)
    {
      if |providerIds| > 0 {
        QueueJob(NotificationJob(batch, providerIds, 0));
      }
    }

    /** PayOS's report on a batch the database knows. */
    method FoldIn(batch: Id, payout: Payout)
      requires Valid() && batch in store.batches
      modifies redis, store`ledger, store`batches
      ensures Valid() && redis.processing == old(redis.processing)
      ensures View() == ResultsIn(old(View()), batch, payout)
    {
      var notified := store.PersistPayoutResults(batch, payout);
      QueueNotification(batch, notified.value);
    }

    /** One attempt at a payout job: reserve, then create at PayOS, then fold in what PayOS reports. */
    method ProcessPayout(raw: Job, a: Attempt) returns (job: Job, r: Result<()>)
      requires Valid() && raw.PayoutJob? && raw in redis.processing
      modifies redis, store`ledger, store`batches, payos
      ensures Valid() && redis.processing == old(redis.processing)
      ensures Tried(View(), job, r.Success?) == PayoutTried(old(View()), raw, a)
      ensures IdOf(job) == IdOf(raw) && job == raw.(payoutId := job.payoutId)
    {
      job := raw;
      HoldsWellFormedMember(redis.Contents(), raw);
      r := store.EnsureBatchReservation(job.request, job.payoutId);
      if r.Failure? {
        return;
      }
      if job.payoutId.None? {
        var id := payos.CreateBatch(job, a.newId);
        if !a.createAnswered {
          return job, Failure(PayOsUnavailable);
        }
        job := job.(payoutId := Some(id));
      }
      if a.report.None? {
        return job, Failure(PayOsUnavailable);
      }
      FoldIn(job.request.batch, a.report.value);
      r := Success(());
    }

    method ProcessRetryJob(raw: Job, a: Attempt) returns (job: Job, r: Result<()>)
      requires Valid() && raw in redis.processing
      modifies redis, store`ledger, store`batches, payos
      ensures Valid() && redis.processing == old(redis.processing)
      ensures IdOf(job) == IdOf(raw) && (raw.PayoutJob? ==> job == raw.(payoutId := job.payoutId))
      ensures Tried(View(), job, r.Success?) == JobTried(old(View()), raw, a)
    {
      match raw
      case NotificationJob(batch, providers, attempt) =>
        job := raw;
        var failed, delivered := NotifyProviders(providers, a.reachable);
        if |failed| > 0 {
          job := job.(providers := failed);
          return job, Failure(NotifyFailed(|failed|));
        }
        r := Success(());
      case PayoutJob(_, _, _, _) =>
        job, r := ProcessPayout(raw, a);
    }

    /** Ask again about batches left PROCESSING; `reports` pairs each with PayOS's answer, if it came. */
    method ReconcileProcessingBatches(reports: seq<(Id, Option<Payout>)>)
      requires Valid() && |reports| <= PAYOUT_RETRY_BATCH_SIZE
      modifies redis, store`ledger, store`batches
      ensures Valid() && redis.processing == old(redis.processing)
      ensures View() == Folded(BatchReconciled, old(View()), reports)
    {
      for i := 0 to |reports|
        invariant Valid() && redis.processing == old(redis.processing)
        invariant View() == Folded(BatchReconciled, old(View()), reports[..i])
      {
        assert reports[..i + 1][..i] == reports[..i];
        var (batch, report) := reports[i];
        if batch in store.batches && store.batches[batch].status == PROCESSING_BATCH && report.Some? {
          FoldIn(batch, report.value);
        }
      }
      assert reports[..|reports|] == reports;
    }

    /** The worker's round: recover, reconcile, then up to ten jobs, stopping at the first failure.
        Nothing stays in flight and the queue stays conserved throughout. */
    method ProcessRetryQueue(reports: seq<(Id, Option<Payout>)>, attempts: seq<Attempt>)
      requires Valid()
      requires |reports| <= PAYOUT_RETRY_BATCH_SIZE && |attempts| == PAYOUT_RETRY_BATCH_SIZE
      modifies redis, store`ledger, store`batches, payos
      ensures Valid() && redis.processing == []
      ensures View() == RoundDone(old(View()), reports, attempts)
    {
      ghost var before := redis.Contents();
      RecoverConserves(before);
      redis.RecoverInFlightJobs();
      HoldsWellFormedFrom(before, redis.Contents());
      ReconcileProcessingBatches(reports);
      ProcessJobs(attempts);
    }

    method ProcessJobs(attempts: seq<Attempt>)
      requires Valid() && redis.processing == []
      modifies redis, store`ledger, store`batches, payos
      ensures Valid() && redis.processing == []
      ensures View() == JobsHandled(old(View()), attempts)
    {
      ghost var goal := JobsHandled(View(), attempts);
      for index := 0 to |attempts|
        invariant Valid() && redis.processing == []
        invariant JobsHandled(View(), attempts[index..]) == goal
      {
        if redis.queue == [] {
          break;
        }
        assert attempts[index..] == [attempts[index]] + attempts[index + 1..];
        var failed := ProcessOne(attempts[index], attempts[index + 1..]);
        if failed {
          return;
        }
      }
    }

    method ProcessOne(a: Attempt, ghost rest: seq<Attempt>) returns (failed: bool)
      requires Valid() && redis.processing == [] && redis.queue != []
      modifies redis, store`ledger, store`batches, payos
      ensures Valid() && redis.processing == []
      ensures JobsHandled(old(View()), [a] + rest) == if failed then View() else JobsHandled(View(), rest)
    {
      OneMoreHandled(View(), a, rest);
      failed := ProcessNext(a);
    }

    /** Take the oldest job and see it through one attempt. */
    method ProcessNext(a: Attempt) returns (failed: bool)
      requires Valid() && redis.processing == [] && redis.queue != []
      modifies redis, store`ledger, store`batches, payos
      ensures Valid() && redis.processing == []
      ensures var raw := old(redis.queue)[|old(redis.queue)| - 1];
        && View() == Handled(Taken(old(View())), raw, a)
        && failed == !JobTried(Taken(old(View())), raw, a).ok
    {
      ghost var start := redis.Contents();
      DequeueConserves(start);
      var raw := redis.DequeueRetry();
      assert start.queue == redis.queue + [raw.value];
      assert forall job :: job in Held(redis.Contents()) ==> job in start.queue;
      HoldsWellFormedFrom(start, redis.Contents());
      failed := ProcessTaken(raw.value, a);
    }

    /** A dequeued job leaves the processing list one way or the other. */
    method ProcessTaken(raw: Job, a: Attempt) returns (failed: bool)
      requires Valid() && redis.processing == [raw]
      modifies redis, store`ledger, store`batches, payos
      ensures Valid() && redis.processing == []
      ensures View() == Handled(old(View()), raw, a)
      ensures failed == !JobTried(old(View()), raw, a).ok
    {
      var job, r := ProcessRetryJob(raw, a);
      ghost var processed := redis.Contents();
      if r.Success? {
        AcknowledgeConserves(processed, raw);
        redis.AcknowledgeRetry(raw);
        HoldsWellFormedFrom(processed, redis.Contents());
        return false;
      }
      if raw.PayoutJob? {
        HoldsWellFormedMember(processed, raw);
        store.MarkBatchUnknown(raw.request.batch);
      }
      RequeueConserves(processed, raw, job);
      redis.RequeueRetry(raw, job);
      HoldsWellFormedFrom(processed, redis.Contents());
      return true;
    }
  }
}
