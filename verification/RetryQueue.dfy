/** The crash-safe Redis queue: two lists, a dedupe marker and a done marker per job.
    A list is a sequence whose index 0 is the head; LPUSH adds there and RPOPLPUSH takes from the tail. */
module RetryQueue {
  import opened Sums
  import opened Ledger
  import opened PayoutJobs

  datatype JobId = PayoutJobId(uuid: Id) | NotificationJobId(batch: Id)

  datatype Job =
    | PayoutJob(uuid: Id, request: PayoutRequest, payoutId: Option<Id>, attempt: nat)
    | NotificationJob(notified: Id, providers: seq<Id>, attempt: nat)

  function IdOf(job: Job): JobId {
    match job
    case PayoutJob(uuid, _, _, _) => PayoutJobId(uuid)
    case NotificationJob(batch, _, _) => NotificationJobId(batch)
  }

  // Everything Redis holds. Markers are taken before they expire (90 and 365 days).
  datatype Redis = Redis(queue: seq<Job>, processing: seq<Job>, dedupe: set<JobId>, done: set<JobId>)

  /** `LREM list 1 value`: drop the first occurrence from the head. */
  function Remove(jobs: seq<Job>, raw: Job): seq<Job> {
    if jobs == [] then []
    else if jobs[0] == raw then jobs[1..]
    else [jobs[0]] + Remove(jobs[1..], raw)
  }

  predicate Accepts(r: Redis, job: Job) {
    IdOf(job) !in r.done && IdOf(job) !in r.dedupe
  }

  function Enqueued(r: Redis, job: Job): Redis {
    if Accepts(r, job)
    then r.(queue := [job] + r.queue, dedupe := r.dedupe + {IdOf(job)})
    else r
  }

  function Dequeued(r: Redis): Redis {
    if r.queue == [] then r
    else
      var n := |r.queue| - 1;
      r.(queue := r.queue[..n], processing := [r.queue[n]] + r.processing)
  }

  function Acknowledged(r: Redis, raw: Job): Redis {
    r.(processing := Remove(r.processing, raw),
       dedupe := r.dedupe - {IdOf(raw)},
       done := if raw.NotificationJob? then r.done + {IdOf(raw)} else r.done)
  }

  function Retried(job: Job): Job {
    job.(attempt := job.attempt + 1)
  }

  function Requeued(r: Redis, raw: Job, job: Job): Redis {
    r.(processing := Remove(r.processing, raw), queue := [Retried(job)] + r.queue)
  }

  function Recovered(r: Redis): Redis {
    r.(queue := r.processing + r.queue, processing := [])
  }

  function Held(r: Redis): seq<Job> {
    r.processing + r.queue
  }

  predicate OnceEach(jobs: seq<Job>) {
    forall i, j :: 0 <= i < j < |jobs| ==> IdOf(jobs[i]) != IdOf(jobs[j])
  }

  predicate Holds(jobs: seq<Job>, id: JobId) {
    exists i :: 0 <= i < |jobs| && IdOf(jobs[i]) == id
  }

  /** No job id is in the two lists twice, and the dedupe markers name exactly the jobs in them. */
  ghost predicate Conserved(r: Redis) {
    && OnceEach(Held(r))
    && (forall id :: Holds(Held(r), id) <==> id in r.dedupe)
    && r.dedupe !! r.done
  }

  // ---- Lists ----------------------------------------------------------------

  lemma {:induction false} RemoveSplits(jobs: seq<Job>, raw: Job) returns (k: nat)
    requires raw in jobs
    ensures k < |jobs| && jobs[k] == raw && Remove(jobs, raw) == jobs[..k] + jobs[k + 1..]
  {
    if jobs[0] == raw {
      k := 0;
    } else {
      var j := RemoveSplits(jobs[1..], raw);
      k := j + 1;
    }
  }

  lemma {:induction false} RemoveAbsent(jobs: seq<Job>, raw: Job)
    requires raw !in jobs
    ensures Remove(jobs, raw) == jobs
  {
    if jobs != [] {
      RemoveAbsent(jobs[1..], raw);
    }
  }

  /** Two lists with the same ids in some order hold the same jobs, once each. */
  lemma Reordered(a: seq<Job>, b: seq<Job>, n: nat)
    requires n <= |a| && b == a[n..] + a[..n]
    ensures OnceEach(a) ==> OnceEach(b)
    ensures forall id :: Holds(a, id) <==> Holds(b, id)
  {
    assert forall i :: 0 <= i < |b| ==> b[i] == a[if i < |a| - n then i + n else i - (|a| - n)];
    forall id ensures Holds(a, id) <==> Holds(b, id) {
      if Holds(a, id) {
        var i :| 0 <= i < |a| && IdOf(a[i]) == id;
        assert b[if i < n then i + (|a| - n) else i - n] == a[i];
      }
    }
  }

  lemma Dropped(a: seq<Job>, k: nat)
    requires k < |a| && OnceEach(a)
    ensures var rest := a[..k] + a[k + 1..];
      OnceEach(rest) && forall id :: Holds(rest, id) <==> Holds(a, id) && id != IdOf(a[k])
  {
    var rest := a[..k] + a[k + 1..];
    assert forall i :: 0 <= i < |rest| ==> rest[i] == a[if i < k then i else i + 1];
    forall id ensures Holds(rest, id) <==> Holds(a, id) && id != IdOf(a[k]) {
      if Holds(a, id) && id != IdOf(a[k]) {
        var i :| 0 <= i < |a| && IdOf(a[i]) == id;
        assert rest[if i < k then i else i - 1] == a[i];
      }
    }
  }

  lemma Inserted(rest: seq<Job>, m: nat, x: Job)
    requires m <= |rest| && OnceEach(rest) && !Holds(rest, IdOf(x))
    ensures var b := rest[..m] + [x] + rest[m..];
      OnceEach(b) && forall id :: Holds(b, id) <==> Holds(rest, id) || id == IdOf(x)
  {
    var b := rest[..m] + [x] + rest[m..];
    assert b[m] == x;
    assert forall i :: 0 <= i < |b| && i != m ==> b[i] == rest[if i < m then i else i - 1];
    forall id ensures Holds(b, id) <==> Holds(rest, id) || id == IdOf(x) {
      if Holds(rest, id) {
        var j :| 0 <= j < |rest| && IdOf(rest[j]) == id;
        assert b[if j < m then j else j + 1] == rest[j];
      }
    }
  }

  /** Replacing the element at `k` by one of the same id, and moving it elsewhere, changes no ids. */
  lemma Substituted(a: seq<Job>, k: nat, m: nat, x: Job)
    requires k < |a| && m < |a| && IdOf(x) == IdOf(a[k])
    requires OnceEach(a)
    ensures var rest := a[..k] + a[k + 1..];
      var b := rest[..m] + [x] + rest[m..];
      OnceEach(b) && forall id :: Holds(a, id) <==> Holds(b, id)
  {
    Dropped(a, k);
    Inserted(a[..k] + a[k + 1..], m, x);
    assert Holds(a, IdOf(a[k]));
  }

  // ---- What each operation keeps --------------------------------------------

  lemma EnqueueConserves(r: Redis, job: Job)
    requires Conserved(r)
    ensures Conserved(Enqueued(r, job))
  {
    if Accepts(r, job) {
      var a := Held(r);
      var b := Held(Enqueued(r, job));
      var n := |r.processing|;
      assert !Holds(a, IdOf(job));
      assert forall i :: 0 <= i < |b| && i != n ==> b[i] == a[if i < n then i else i - 1];
      assert b[n] == job;
      forall id ensures Holds(b, id) <==> Holds(a, id) || id == IdOf(job) {
        if Holds(a, id) {
          var i :| 0 <= i < |a| && IdOf(a[i]) == id;
          assert b[if i < n then i else i + 1] == a[i];
        }
      }
    }
  }

  lemma DequeueConserves(r: Redis)
    requires Conserved(r)
    ensures Conserved(Dequeued(r))
    ensures multiset(Held(Dequeued(r))) == multiset(Held(r))
  {
    if r.queue != [] {
      var n := |r.queue| - 1;
      var a := Held(r);
      var b := Held(Dequeued(r));
      assert r.queue == r.queue[..n] + [r.queue[n]];
      assert b == a[|a| - 1..] + a[..|a| - 1];
      Reordered(a, b, |a| - 1);
      assert a == a[..|a| - 1] + a[|a| - 1..];
    }
  }

  lemma AcknowledgeConserves(r: Redis, raw: Job)
    requires Conserved(r) && raw in r.processing
    ensures Conserved(Acknowledged(r, raw))
    ensures multiset(Held(Acknowledged(r, raw))) == multiset(Held(r)) - multiset{raw}
  {
    var k := RemoveSplits(r.processing, raw);
    var a := Held(r);
    Dropped(a, k);
    assert Held(Acknowledged(r, raw)) == a[..k] + a[k + 1..];
    assert a == a[..k] + [a[k]] + a[k + 1..];
    assert Holds(a, IdOf(raw));
  }

  lemma RequeueConserves(r: Redis, raw: Job, job: Job)
    requires Conserved(r) && raw in r.processing && IdOf(job) == IdOf(raw)
    ensures Conserved(Requeued(r, raw, job))
  {
    var k := RemoveSplits(r.processing, raw);
    var a := Held(r);
    var m := |r.processing| - 1;
    Substituted(a, k, m, Retried(job));
    var rest := a[..k] + a[k + 1..];
    assert rest == Remove(r.processing, raw) + r.queue;
    assert Held(Requeued(r, raw, job)) == rest[..m] + [Retried(job)] + rest[m..];
  }

  /** Recovery loses and reorders nothing: what was being processed goes, in order, before the queue. */
  lemma RecoverConserves(r: Redis)
    requires Conserved(r)
    ensures Conserved(Recovered(r)) && Held(Recovered(r)) == Held(r)
  {
    assert Held(Recovered(r)) == Held(r);
  }

  /** Returning a job keeps the queue sound exactly when the worker still holds it. A second worker that
      recovered it in the meantime, an outlived lock, would leave the job queued twice. */
  lemma RequeueSafeExactly(r: Redis, raw: Job, job: Job)
    requires Conserved(r) && IdOf(job) == IdOf(raw)
    ensures Conserved(Requeued(r, raw, job)) <==> raw in r.processing
  {
    if raw in r.processing {
      RequeueConserves(r, raw, job);
    } else {
      RemoveAbsent(r.processing, raw);
      var after := Requeued(r, raw, job);
      var b := Held(after);
      var n := |r.processing|;
      assert b[n] == Retried(job);
      assert Holds(b, IdOf(raw));
      if IdOf(raw) in r.dedupe {
        var a := Held(r);
        var i :| 0 <= i < |a| && IdOf(a[i]) == IdOf(raw);
        var j := if i < n then i else i + 1;
        assert b[j] == a[i];
        assert !OnceEach(b);
      }
    }
  }

  /** Acknowledging a job keeps the queue sound exactly when the worker still holds it or nobody owes it any
      more. After an outlived lock it takes the marker off a job that is still queued. */
  lemma AcknowledgeSafeExactly(r: Redis, raw: Job)
    requires Conserved(r)
    ensures Conserved(Acknowledged(r, raw)) <==> raw in r.processing || IdOf(raw) !in r.dedupe
  {
    if raw in r.processing {
      AcknowledgeConserves(r, raw);
    } else {
      RemoveAbsent(r.processing, raw);
      assert Held(Acknowledged(r, raw)) == Held(r);
      assert IdOf(raw) in r.dedupe ==> Holds(Held(r), IdOf(raw));
    }
  }

  // ---- All runs: the queue refines a plain book of owed jobs -----------------

  datatype Book = Book(owed: set<JobId>, completed: set<JobId>)

  datatype QueueEvent =
    | EnqueueJob(job: Job)
    | TakeJob
    | AckJob(raw: Job)
    | ReturnJob(raw: Job, job: Job)
    | CrashWorker
    | RecoverJobs

  predicate Possible(r: Redis, e: QueueEvent) {
    match e
    case AckJob(raw) => raw in r.processing
    case ReturnJob(raw, job) => raw in r.processing && IdOf(job) == IdOf(raw)
    case _ => true
  }

  function Happens(r: Redis, e: QueueEvent): Redis {
    match e
    case EnqueueJob(job) => Enqueued(r, job)
    case TakeJob => Dequeued(r)
    case AckJob(raw) => Acknowledged(r, raw)
    case ReturnJob(raw, job) => Requeued(r, raw, job)
    case CrashWorker => r
    case RecoverJobs => Recovered(r)
  }

  /** The specification: only an accepted job becomes owed, only an acknowledgement settles it. */
  function Booked(b: Book, e: QueueEvent): Book {
    match e
    case EnqueueJob(job) =>
      if IdOf(job) in b.owed || IdOf(job) in b.completed then b else b.(owed := b.owed + {IdOf(job)})
    case AckJob(raw) =>
      Book(b.owed - {IdOf(raw)}, if raw.NotificationJob? then b.completed + {IdOf(raw)} else b.completed)
    case _ => b
  }

  ghost predicate Represents(r: Redis, b: Book) {
    Conserved(r) && r.dedupe == b.owed && r.done == b.completed
  }

  lemma StepRefines(r: Redis, b: Book, e: QueueEvent)
    requires Represents(r, b) && Possible(r, e)
    ensures Represents(Happens(r, e), Booked(b, e))
  {
    match e
    case EnqueueJob(job) => EnqueueConserves(r, job);
    case TakeJob => DequeueConserves(r);
    case AckJob(raw) => AcknowledgeConserves(r, raw);
    case ReturnJob(raw, job) => RequeueConserves(r, raw, job);
    case CrashWorker =>
    case RecoverJobs => RecoverConserves(r);
  }

  predicate QueueRuns(r: Redis, events: seq<QueueEvent>)
    decreases |events|
  {
    events == [] || (Possible(r, events[0]) && QueueRuns(Happens(r, events[0]), events[1..]))
  }

  function RedisAfter(r: Redis, events: seq<QueueEvent>): Redis
    decreases |events|
  {
    if events == [] then r else RedisAfter(Happens(r, events[0]), events[1..])
  }

  function BookAfter(b: Book, events: seq<QueueEvent>): Book
    decreases |events|
  {
    if events == [] then b else BookAfter(Booked(b, events[0]), events[1..])
  }

  lemma {:induction false} RunRefines(r: Redis, b: Book, events: seq<QueueEvent>)
    requires Represents(r, b) && QueueRuns(r, events)
    ensures Represents(RedisAfter(r, events), BookAfter(b, events))
    decreases |events|
  {
    if events != [] {
      StepRefines(r, b, events[0]);
      RunRefines(Happens(r, events[0]), Booked(b, events[0]), events[1..]);
    }
  }

  const EMPTY := Redis([], [], {}, {})

  /** Over every run, with crashes and recoveries anywhere: a job is in one of the two lists, once,
      exactly when it was accepted and has not been acknowledged since. */
  lemma NoJobLostOrDoubled(events: seq<QueueEvent>)
    requires QueueRuns(EMPTY, events)
    ensures var r := RedisAfter(EMPTY, events);
      var b := BookAfter(Book({}, {}), events);
      && OnceEach(r.processing + r.queue)
      && forall id :: Holds(r.processing + r.queue, id) <==> id in b.owed
  {
    RunRefines(EMPTY, Book({}, {}), events);
  }

  /** How often a run accepted a job with this id. */
  function TimesAccepted(r: Redis, events: seq<QueueEvent>, id: JobId): nat
    decreases |events|
  {
    if events == [] then 0
    else
      (if events[0].EnqueueJob? && IdOf(events[0].job) == id && Accepts(r, events[0].job) then 1 else 0)
      + TimesAccepted(Happens(r, events[0]), events[1..], id)
  }

  lemma {:induction false} NotificationOnce(r: Redis, events: seq<QueueEvent>, batch: Id)
    requires Conserved(r) && QueueRuns(r, events)
    ensures TimesAccepted(r, events, NotificationJobId(batch))
      <= if NotificationJobId(batch) in r.dedupe + r.done then 0 else 1
    decreases |events|
  {
    if events != [] {
      StepRefines(r, Book(r.dedupe, r.done), events[0]);
      NotificationOnce(Happens(r, events[0]), events[1..], batch);
    }
  }

  /** However often results come back for a batch, one notification job is accepted for it, ever. */
  lemma OneNotificationPerBatch(events: seq<QueueEvent>, batch: Id)
    requires QueueRuns(EMPTY, events)
    ensures TimesAccepted(EMPTY, events, NotificationJobId(batch)) <= 1
  {
    NotificationOnce(EMPTY, events, batch);
  }

  lemma QueueRunStarts(r: Redis, e: QueueEvent, rest: seq<QueueEvent>)
    requires Possible(r, e) && QueueRuns(Happens(r, e), rest)
    ensures QueueRuns(r, [e] + rest) && RedisAfter(r, [e] + rest) == RedisAfter(Happens(r, e), rest)
  {
    assert ([e] + rest)[1..] == rest;
  }

  /** What a second worker's recovery leaves: the job the first one still works on is queued again. */
  lemma RecoveredUnderHand(job: Job)
    ensures var events := [EnqueueJob(job), TakeJob, RecoverJobs];
      QueueRuns(EMPTY, events) && RedisAfter(EMPTY, events) == Redis([job], [], {IdOf(job)}, {})
  {
    var queued := Happens(EMPTY, EnqueueJob(job));
    assert queued.queue == [job];
    var taken := Happens(queued, TakeJob);
    assert taken == Redis([], [job], {IdOf(job)}, {});
    assert Happens(taken, RecoverJobs) == Redis([job], [], {IdOf(job)}, {});
    QueueRunStarts(taken, RecoverJobs, []);
    QueueRunStarts(queued, TakeJob, [RecoverJobs] + []);
    QueueRunStarts(EMPTY, EnqueueJob(job), [TakeJob] + ([RecoverJobs] + []));
    assert [EnqueueJob(job), TakeJob, RecoverJobs] == [EnqueueJob(job)] + ([TakeJob] + ([RecoverJobs] + []));
  }

  /** The outlived lock is real: a worker takes a job, a second one recovers it, and the first then returns or
      acknowledges it. Returned, the job is queued twice; acknowledged, it stays queued without its marker. */
  lemma OutlivedLock(job: Job)
    ensures var events := [EnqueueJob(job), TakeJob, RecoverJobs];
      var r := RedisAfter(EMPTY, events);
      && QueueRuns(EMPTY, events) && job !in r.processing && IdOf(job) in r.dedupe
      && Requeued(r, job, job).queue == [Retried(job), job] && !Conserved(Requeued(r, job, job))
      && Acknowledged(r, job).queue == [job] && !Conserved(Acknowledged(r, job))
  {
    RecoveredUnderHand(job);
    RunRefines(EMPTY, Book({}, {}), [EnqueueJob(job), TakeJob, RecoverJobs]);
    var r := Redis([job], [], {IdOf(job)}, {});
    RequeueSafeExactly(r, job, job);
    AcknowledgeSafeExactly(r, job);
  }
}
