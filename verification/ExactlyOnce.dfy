/** Exactly-once effects from at-least-once attempts: one PayOS batch per payout job, one delivered
    notification per provider. */
module ExactlyOnce {
  import opened Sums
  import opened Ledger
  import opened PayoutJobs
  import opened RetryQueue

  // ---- One external batch per job -------------------------------------------

  // PayOS keeps one batch per idempotency key; `opener` records which job's call opened it.
  datatype Opening = Opening(key: Id, batchId: Id, opener: Id)

  // The job a worker holds: as stored in Redis, and as changed in memory since.
  datatype Hand = Hand(raw: Job, job: Job)

  datatype Worker = Worker(redis: Redis, hand: Option<Hand>, openings: seq<Opening>)

  datatype WorkerEvent =
    | Queue(job: Job)
    | Take
    | CallCreate(newId: Id, answered: bool)
    | Finish
    | GiveBack
    | Crash
    | Recover

  function OpeningIndex(openings: seq<Opening>, key: Id): (k: nat)
    ensures k <= |openings|
    ensures k < |openings| ==> openings[k].key == key
    ensures forall i :: 0 <= i < k ==> openings[i].key != key
  {
    IndexWhere(openings, (o: Opening) => o.key == key)
  }

  /** PayOS's side of `batch.create`: a known key gets the batch it already has. */
  function Opened(openings: seq<Opening>, job: Job, newId: Id): seq<Opening>
    requires job.PayoutJob?
  {
    var key := job.request.idempotencyKey;
    if OpeningIndex(openings, key) < |openings| then openings
    else openings + [Opening(key, newId, job.uuid)]
  }

  function BatchFor(openings: seq<Opening>, key: Id): Option<Id> {
    var k := OpeningIndex(openings, key);
    if k < |openings| then Some(openings[k].batchId) else None
  }

  predicate Allowed(w: Worker, e: WorkerEvent) {
    match e
    case Queue(job) => job.PayoutJob? ==> job.payoutId.None?
    case Take => w.hand.None? && w.redis.queue != []
    case CallCreate(_, _) => w.hand.Some? && w.hand.value.job.PayoutJob? && w.hand.value.job.payoutId.None?
    case Finish => w.hand.Some?
    case GiveBack => w.hand.Some?
    case Crash => true
    case Recover => w.hand.None?
  }

  function Next(w: Worker, e: WorkerEvent): Worker
    requires Allowed(w, e)
  {
    match e
    case Queue(job) => w.(redis := Enqueued(w.redis, job))
    case Take =>
      var raw := w.redis.queue[|w.redis.queue| - 1];
      w.(redis := Dequeued(w.redis), hand := Some(Hand(raw, raw)))
    case CallCreate(newId, answered) =>
      // When the answer is lost to the timeout the batch exists all the same.
      var h := w.hand.value;
      var openings := Opened(w.openings, h.job, newId);
      var id := BatchFor(openings, h.job.request.idempotencyKey);
      w.(openings := openings, hand := if answered then Some(h.(job := h.job.(payoutId := id))) else w.hand)
    case Finish => w.(redis := Acknowledged(w.redis, w.hand.value.raw), hand := None)
    case GiveBack => w.(redis := Requeued(w.redis, w.hand.value.raw, w.hand.value.job), hand := None)
    case Crash => w.(hand := None)
    case Recover => w.(redis := Recovered(w.redis))
  }

  /** A job that has left the builder keeps the request it was built with. */
  predicate AsBuilt(requests: map<Id, PayoutRequest>, openings: seq<Opening>, job: Job) {
    job.PayoutJob? ==>
      && job.uuid in requests && job.request == requests[job.uuid]
      && (job.payoutId.Some? ==> job.payoutId == BatchFor(openings, job.request.idempotencyKey))
  }

  /** Each queued payout job is its builder's: its uuid stands for one request. */
  predicate BuiltFrom(requests: map<Id, PayoutRequest>, events: seq<WorkerEvent>) {
    forall i :: 0 <= i < |events| && events[i].Queue? && events[i].job.PayoutJob? ==>
      events[i].job.uuid in requests && requests[events[i].job.uuid] == events[i].job.request
  }

  predicate DistinctOpenings(openings: seq<Opening>) {
    forall i, j :: 0 <= i < j < |openings| ==> openings[i].key != openings[j].key
  }

  predicate OpenedByKey(requests: map<Id, PayoutRequest>, openings: seq<Opening>) {
    && DistinctOpenings(openings)
    && forall i :: 0 <= i < |openings| ==>
        openings[i].opener in requests && openings[i].key == requests[openings[i].opener].idempotencyKey
  }

  ghost predicate WorkerInv(requests: map<Id, PayoutRequest>, w: Worker) {
    && Conserved(w.redis)
    && (forall job :: job in Held(w.redis) ==> AsBuilt(requests, w.openings, job))
    && OpenedByKey(requests, w.openings)
    && (w.hand.Some? ==>
          && w.hand.value.raw in w.redis.processing
          && IdOf(w.hand.value.job) == IdOf(w.hand.value.raw)
          && AsBuilt(requests, w.openings, w.hand.value.job))
  }

  lemma {:induction false} OpeningIndexStable(openings: seq<Opening>, o: Opening, key: Id)
    requires OpeningIndex(openings, key) < |openings|
    ensures BatchFor(openings + [o], key) == BatchFor(openings, key)
  {
    assert forall i :: 0 <= i < |openings| ==> (openings + [o])[i] == openings[i];
  }

  lemma CallKeepsBuilt(requests: map<Id, PayoutRequest>, w: Worker, e: WorkerEvent, job: Job)
    requires e.CallCreate? && Allowed(w, e) && AsBuilt(requests, w.openings, job)
    ensures AsBuilt(requests, Next(w, e).openings, job)
  {
    if job.PayoutJob? && job.payoutId.Some? && Next(w, e).openings != w.openings {
      var h := w.hand.value.job;
      OpeningIndexStable(w.openings, Opening(h.request.idempotencyKey, e.newId, h.uuid), job.request.idempotencyKey);
    }
  }

  lemma CallKeeps(requests: map<Id, PayoutRequest>, w: Worker, e: WorkerEvent)
    requires WorkerInv(requests, w) && e.CallCreate? && Allowed(w, e)
    ensures WorkerInv(requests, Next(w, e))
  {
    forall job | job in Held(w.redis) ensures AsBuilt(requests, Next(w, e).openings, job) {
      CallKeepsBuilt(requests, w, e, job);
    }
    CallKeepsBuilt(requests, w, e, w.hand.value.job);
  }

  lemma {:induction false} RemoveMembers(jobs: seq<Job>, raw: Job)
    ensures forall job :: job in Remove(jobs, raw) ==> job in jobs
  {
    if jobs != [] {
      RemoveMembers(jobs[1..], raw);
    }
  }

  lemma WorkerStepKeeps(requests: map<Id, PayoutRequest>, w: Worker, e: WorkerEvent)
    requires WorkerInv(requests, w) && Allowed(w, e) && BuiltFrom(requests, [e])
    ensures WorkerInv(requests, Next(w, e))
  {
    var after := Next(w, e);
    match e
    case Queue(job) =>
      assert [e][0] == e;
      EnqueueConserves(w.redis, job);
      forall x | x in Held(after.redis) ensures AsBuilt(requests, after.openings, x) {
        assert x == job || x in Held(w.redis);
      }
    case Take =>
      DequeueConserves(w.redis);
      forall x | x in Held(after.redis) ensures x in Held(w.redis) {
        assert x in multiset(Held(after.redis));
        assert x in multiset(Held(w.redis));
      }
      assert w.redis.queue[|w.redis.queue| - 1] in Held(w.redis);
    case CallCreate(_, _) => CallKeeps(requests, w, e);
    case Finish =>
      AcknowledgeConserves(w.redis, w.hand.value.raw);
      RemoveMembers(w.redis.processing, w.hand.value.raw);
    case GiveBack =>
      RequeueConserves(w.redis, w.hand.value.raw, w.hand.value.job);
      RemoveMembers(w.redis.processing, w.hand.value.raw);
      forall x | x in Held(after.redis) ensures AsBuilt(requests, after.openings, x) {
        assert x == Retried(w.hand.value.job) || x in Held(w.redis);
      }
    case Crash =>
    case Recover => RecoverConserves(w.redis);
  }

  predicate WorkerRuns(w: Worker, events: seq<WorkerEvent>)
    decreases |events|
  {
    events == [] || (Allowed(w, events[0]) && WorkerRuns(Next(w, events[0]), events[1..]))
  }

  function WorkerAfter(w: Worker, events: seq<WorkerEvent>): Worker
    requires WorkerRuns(w, events)
    decreases |events|
  {
    if events == [] then w else WorkerAfter(Next(w, events[0]), events[1..])
  }

  lemma {:induction false} WorkerRunKeeps(requests: map<Id, PayoutRequest>, w: Worker, events: seq<WorkerEvent>)
    requires WorkerInv(requests, w) && WorkerRuns(w, events) && BuiltFrom(requests, events)
    ensures WorkerInv(requests, WorkerAfter(w, events))
    decreases |events|
  {
    if events != [] {
      assert BuiltFrom(requests, [events[0]]);
      WorkerStepKeeps(requests, w, events[0]);
      assert BuiltFrom(requests, events[1..]);
      WorkerRunKeeps(requests, Next(w, events[0]), events[1..]);
    }
  }

  const IDLE := Worker(EMPTY, None, [])

  /** However a job's attempts fail, time out, crash and are retried, PayOS opens at most one batch on
      its behalf, and any payout id it carries is that batch's. */
  lemma OneExternalBatchPerJob(
    requests: map<Id, PayoutRequest>, events: seq<WorkerEvent>, uuid: Id, i: nat, j: nat)
    requires WorkerRuns(IDLE, events) && BuiltFrom(requests, events)
    requires i < |WorkerAfter(IDLE, events).openings| && j < |WorkerAfter(IDLE, events).openings|
    requires WorkerAfter(IDLE, events).openings[i].opener == uuid == WorkerAfter(IDLE, events).openings[j].opener
    ensures i == j
    ensures forall job ::
      job in Held(WorkerAfter(IDLE, events).redis) && job.PayoutJob? && job.uuid == uuid && job.payoutId.Some?
      ==> job.payoutId == Some(WorkerAfter(IDLE, events).openings[i].batchId)
  {
    WorkerRunKeeps(requests, IDLE, events);
    var w := WorkerAfter(IDLE, events);
    var k := OpeningIndex(w.openings, requests[uuid].idempotencyKey);
    assert i == j == k;
  }

  // ---- One acknowledged notification per provider ----------------------------
  // An attempt reaches a provider when the call is acknowledged in time. One that times out counts as failed and is
  // made again, though the notification may have arrived.

  /** `[...new Set(ids)]`: first occurrences, in order. */
  function Dedup(ids: seq<Id>): (unique: seq<Id>)
    ensures Distinct(unique)
    ensures forall x :: x in unique <==> x in ids
  {
    if ids == [] then []
    else
      var before := Dedup(ids[..|ids| - 1]);
      assert ids == ids[..|ids| - 1] + [ids[|ids| - 1]];
      if ids[|ids| - 1] in before then before else before + [ids[|ids| - 1]]
  }

  function Reached(reachable: set<Id>): Id -> bool {
    (x: Id) => x in reachable
  }

  function Unreached(reachable: set<Id>): Id -> bool {
    (x: Id) => x !in reachable
  }

  /** The providers whose call was not acknowledged: what the next attempt is left with. */
  function Failed(ids: seq<Id>, reachable: set<Id>): seq<Id> {
    Filter(Dedup(ids), Unreached(reachable))
  }

  /** The providers whose call was acknowledged, in order. */
  function Delivered(ids: seq<Id>, reachable: set<Id>): seq<Id> {
    Filter(Dedup(ids), Reached(reachable))
  }

  /** Everything acknowledged over a sequence of attempts, each retrying only what failed before it. */
  function DeliveredOver(ids: seq<Id>, attempts: seq<set<Id>>): seq<Id>
    decreases |attempts|
  {
    if attempts == [] then []
    else Delivered(ids, attempts[0]) + DeliveredOver(Failed(ids, attempts[0]), attempts[1..])
  }

  function LeftOver(ids: seq<Id>, attempts: seq<set<Id>>): seq<Id>
    decreases |attempts|
  {
    if attempts == [] then Dedup(ids)
    else LeftOver(Failed(ids, attempts[0]), attempts[1..])
  }

  lemma {:induction false} FilterKeepsDistinct(ids: seq<Id>, p: Id -> bool)
    requires Distinct(ids)
    ensures Distinct(Filter(ids, p))
  {
    if ids != [] {
      var n := |ids| - 1;
      FilterKeepsDistinct(ids[..n], p);
      FilterMember(ids[..n], p, ids[n]);
      assert ids[n] !in ids[..n];
    }
  }

  /** Without crashes, over any sequence of attempts each named provider's notification is acknowledged at most once,
      and every named provider has either acknowledged or is still owed. */
  lemma {:induction false} EachProviderOnce(ids: seq<Id>, attempts: seq<set<Id>>)
    ensures Distinct(DeliveredOver(ids, attempts))
    ensures forall x :: x in ids <==> x in DeliveredOver(ids, attempts) || x in LeftOver(ids, attempts)
    ensures forall x :: x in LeftOver(ids, attempts) ==> x !in DeliveredOver(ids, attempts)
    decreases |attempts|
  {
    if attempts != [] {
      var now := Delivered(ids, attempts[0]);
      var later := DeliveredOver(Failed(ids, attempts[0]), attempts[1..]);
      EachProviderOnce(Failed(ids, attempts[0]), attempts[1..]);
      forall x ensures x in now <==> x in ids && x in attempts[0] {
        FilterMember(Dedup(ids), Reached(attempts[0]), x);
      }
      forall x ensures x in Failed(ids, attempts[0]) <==> x in ids && x !in attempts[0] {
        FilterMember(Dedup(ids), Unreached(attempts[0]), x);
      }
      FilterKeepsDistinct(Dedup(ids), Reached(attempts[0]));
      forall i, j | 0 <= i < j < |now + later| ensures (now + later)[i] != (now + later)[j] {
        if i < |now| <= j {
          assert now[i] in now && later[j - |now|] in later;
        }
      }
    }
  }
}
