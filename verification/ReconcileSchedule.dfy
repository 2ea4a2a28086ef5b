/** The payment-link reconciliation schedule: a leased sorted set, a 20-minute window, and how often
    PayOS can be asked about one link. Times are milliseconds. */
module ReconcileSchedule {
  import opened Sums
  import opened Ledger

  type Time = int

  const FIRST_CHECK_DELAY: Time := 120_000
  const RECHECK_DELAY: Time := 120_000
  const WORKER_LEASE: Time := 60_000
  const RECONCILE_TTL: Time := 1_200_000
  const LEGACY_TTL: Time := 259_200_000
  const WORKER_BATCH_SIZE := 50

  // `attempts` is only present on entries written under the earlier three-day policy.
  datatype Hash = Hash(invoice: Option<Id>, expiresAt: Option<Time>, attempts: bool)

  // What Redis holds for one link: its score in the sorted set and its metadata.
  datatype Entry = Entry(score: Option<Time>, hash: Option<Hash>)

  const ABSENT := Entry(None, None)

  function Opened(invoice: Id, at: Time): Entry {
    Entry(Some(at + FIRST_CHECK_DELAY), Some(Hash(Some(invoice), Some(at + RECONCILE_TTL), false)))
  }

  predicate Due(e: Entry, at: Time) {
    e.score.Some? && e.score.value <= at
  }

  function Leased(e: Entry, at: Time): Entry {
    e.(score := Some(at + WORKER_LEASE))
  }

  /** The end of the window as the worker reads it: a three-day entry is cut back to 20 minutes. */
  function WindowEnd(h: Hash, at: Time): Time
    requires h.expiresAt.Some?
  {
    var end := h.expiresAt.value;
    if h.attempts || end - at > RECONCILE_TTL then end - LEGACY_TTL + RECONCILE_TTL else end
  }

  /** Metadata is there and its window is still open. */
  predicate Open(e: Entry, at: Time) {
    && e.hash.Some? && e.hash.value.invoice.Some? && e.hash.value.expiresAt.Some?
    && at < WindowEnd(e.hash.value, at)
  }

  function Inspected(e: Entry, at: Time): Entry {
    if !Open(e, at) then ABSENT
    else e.(hash := Some(Hash(e.hash.value.invoice, Some(WindowEnd(e.hash.value, at)), false)))
  }

  /** Put the link back two minutes ahead, unless that is past the window. The hash write creates a bare
      hash when the entry has been removed meanwhile. */
  function Rescheduled(e: Entry, end: Time, at: Time): Entry {
    if at + RECHECK_DELAY > end then ABSENT
    else Entry(Some(at + RECHECK_DELAY), if e.hash.Some? then e.hash else Some(Hash(None, None, false)))
  }

  // ---- One link's history ---------------------------------------------------

  // A claim a worker is carrying: not yet looked at, found open, or already asked about at PayOS.
  datatype Flight = Claimed(claim: nat) | Ready(claim: nat, end: Time) | Polled(claim: nat, end: Time)

  // `claims` logs when the link was claimed, `polls` which claims led to a PayOS call.
  datatype Link = Link(
    now: Time,
    since: Time,
    entry: Entry,
    flights: set<Flight>,
    claims: seq<Time>,
    polls: seq<nat>)

  datatype LinkEvent =
    | Claim(at: Time)
    | Inspect(at: Time, flight: Flight)
    | AskPayOs(at: Time, flight: Flight)
    | Settle(at: Time, flight: Flight)
    | TryLater(at: Time, flight: Flight)
    | Die(at: Time, flight: Flight)
    | HashExpires(at: Time)
    | RemovedElsewhere(at: Time)

  /** `solo`: one worker process that does not crash finishes a round before it claims again. */
  predicate CanHappen(l: Link, e: LinkEvent, solo: bool) {
    && l.now <= e.at
    && match e
       case Claim(at) => Due(l.entry, at) && (solo ==> l.flights == {})
       case Inspect(_, f) => f in l.flights && f.Claimed?
       case AskPayOs(_, f) => f in l.flights && f.Ready?
       case Settle(_, f) => f in l.flights && !f.Claimed?
       case TryLater(_, f) => f in l.flights && !f.Claimed?
       case Die(_, f) => f in l.flights && !solo
       case HashExpires(_) => true
       case RemovedElsewhere(_) => true
  }

  function Happens(l: Link, e: LinkEvent, solo: bool): Link
    requires CanHappen(l, e, solo)
  {
    var l := l.(now := e.at);
    match e
    case Claim(at) =>
      l.(entry := Leased(l.entry, at), claims := l.claims + [at], flights := l.flights + {Claimed(|l.claims|)})
    case Inspect(at, f) =>
      var rest := l.flights - {f};
      if Open(l.entry, at)
      then l.(entry := Inspected(l.entry, at), flights := rest + {Ready(f.claim, WindowEnd(l.entry.hash.value, at))})
      else l.(entry := ABSENT, flights := rest)
    case AskPayOs(_, f) => l.(polls := l.polls + [f.claim], flights := l.flights - {f} + {Polled(f.claim, f.end)})
    case Settle(_, f) => l.(entry := ABSENT, flights := l.flights - {f})
    case TryLater(at, f) => l.(entry := Rescheduled(l.entry, f.end, at), flights := l.flights - {f})
    case Die(_, f) => l.(flights := l.flights - {f})
    case HashExpires(_) => l.(entry := l.entry.(hash := None))
    case RemovedElsewhere(_) => l.(entry := ABSENT)
  }

  // ---- The invariant --------------------------------------------------------

  function Gap(solo: bool): Time {
    if solo then RECHECK_DELAY else WORKER_LEASE
  }

  predicate SpacedClaims(l: Link, solo: bool) {
    && (l.claims != [] ==> l.claims[0] >= l.since + FIRST_CHECK_DELAY && l.claims[|l.claims| - 1] <= l.now)
    && forall i :: 0 < i < |l.claims| ==> l.claims[i] >= l.claims[i - 1] + Gap(solo)
  }

  /** When the link may next be claimed. */
  predicate NextClaimLater(l: Link, solo: bool) {
    l.entry.score.Some? ==>
      && (l.claims == [] ==> l.entry.score.value >= l.since + FIRST_CHECK_DELAY)
      && (l.claims != [] ==> l.entry.score.value >= l.claims[|l.claims| - 1] + WORKER_LEASE)
      && (l.claims != [] && solo && l.flights == {} ==>
            l.entry.score.value >= l.claims[|l.claims| - 1] + RECHECK_DELAY)
  }

  predicate WindowKept(l: Link) {
    l.entry.hash.Some? && l.entry.hash.value.expiresAt.Some? ==>
      !l.entry.hash.value.attempts && l.entry.hash.value.expiresAt.value == l.since + RECONCILE_TTL
  }

  predicate InWindow(l: Link, claim: nat) {
    claim < |l.claims| && l.claims[claim] < l.since + RECONCILE_TTL
  }

  predicate FlightsFine(l: Link) {
    && (forall f :: f in l.flights ==> f.claim < |l.claims|)
    && (forall f :: f in l.flights && !f.Claimed? ==> f.end == l.since + RECONCILE_TTL && InWindow(l, f.claim))
    && (forall f, g :: f in l.flights && g in l.flights && f.claim == g.claim ==> f == g)
    && (forall f :: f in l.flights && !f.Polled? ==> f.claim !in l.polls)
  }

  predicate PollsFine(l: Link) {
    Distinct(l.polls) && forall i :: 0 <= i < |l.polls| ==> InWindow(l, l.polls[i])
  }

  predicate LinkInv(l: Link, solo: bool) {
    && l.since <= l.now
    && SpacedClaims(l, solo) && NextClaimLater(l, solo) && WindowKept(l) && FlightsFine(l) && PollsFine(l)
  }

  lemma ClaimKeeps(l: Link, at: Time, solo: bool)
    requires LinkInv(l, solo) && CanHappen(l, Claim(at), solo)
    ensures LinkInv(Happens(l, Claim(at), solo), solo)
  {
    var after := Happens(l, Claim(at), solo);
    var n := |l.claims|;
    assert forall i :: 0 <= i < n ==> after.claims[i] == l.claims[i];
    assert SpacedClaims(after, solo) by {
      assert n > 0 ==> at >= l.claims[n - 1] + Gap(solo);
    }
    assert FlightsFine(after);
  }

  lemma InspectKeeps(l: Link, at: Time, f: Flight, solo: bool)
    requires LinkInv(l, solo) && CanHappen(l, Inspect(at, f), solo)
    ensures LinkInv(Happens(l, Inspect(at, f), solo), solo)
  {
    var after := Happens(l, Inspect(at, f), solo);
    ClaimsOrdered(l, solo, f.claim, |l.claims| - 1);
    if Open(l.entry, at) {
      assert WindowEnd(l.entry.hash.value, at) == l.since + RECONCILE_TTL;
      assert InWindow(l, f.claim);
    }
    assert FlightsFine(after);
  }

  lemma AskKeeps(l: Link, at: Time, f: Flight, solo: bool)
    requires LinkInv(l, solo) && CanHappen(l, AskPayOs(at, f), solo)
    ensures LinkInv(Happens(l, AskPayOs(at, f), solo), solo)
  {
    var after := Happens(l, AskPayOs(at, f), solo);
    assert forall i :: 0 <= i < |l.polls| ==> l.polls[i] in l.polls && after.polls[i] == l.polls[i];
    assert FlightsFine(after);
  }

  lemma EndOfFlightKeeps(l: Link, e: LinkEvent, solo: bool)
    requires e.Settle? || e.TryLater? || e.Die?
    requires LinkInv(l, solo) && CanHappen(l, e, solo)
    ensures LinkInv(Happens(l, e, solo), solo)
  {
    var after := Happens(l, e, solo);
    assert FlightsFine(after);
    assert e.flight.claim < |l.claims|;
  }

  lemma StepKeeps(l: Link, e: LinkEvent, solo: bool)
    requires LinkInv(l, solo) && CanHappen(l, e, solo)
    ensures LinkInv(Happens(l, e, solo), solo)
  {
    match e
    case Claim(at) => ClaimKeeps(l, at, solo);
    case Inspect(at, f) => InspectKeeps(l, at, f, solo);
    case AskPayOs(at, f) => AskKeeps(l, at, f, solo);
    case Settle(_, _) => EndOfFlightKeeps(l, e, solo);
    case TryLater(_, _) => EndOfFlightKeeps(l, e, solo);
    case Die(_, _) => EndOfFlightKeeps(l, e, solo);
    case HashExpires(_) =>
    case RemovedElsewhere(_) =>
  }

  lemma {:induction false} ClaimsOrdered(l: Link, solo: bool, i: nat, j: nat)
    requires SpacedClaims(l, solo) && i <= j < |l.claims|
    ensures l.claims[j] >= l.claims[i] + (j - i) * Gap(solo)
    decreases j
  {
    if i < j {
      ClaimsOrdered(l, solo, i, j - 1);
    }
  }

  predicate LinkRuns(l: Link, events: seq<LinkEvent>, solo: bool)
    decreases |events|
  {
    events == [] || (CanHappen(l, events[0], solo) && LinkRuns(Happens(l, events[0], solo), events[1..], solo))
  }

  function LinkAfter(l: Link, events: seq<LinkEvent>, solo: bool): Link
    requires LinkRuns(l, events, solo)
    decreases |events|
  {
    if events == [] then l else LinkAfter(Happens(l, events[0], solo), events[1..], solo)
  }

  lemma {:induction false} RunKeeps(l: Link, events: seq<LinkEvent>, solo: bool)
    requires LinkInv(l, solo) && LinkRuns(l, events, solo)
    ensures LinkInv(LinkAfter(l, events, solo), solo)
    ensures LinkAfter(l, events, solo).since == l.since
    decreases |events|
  {
    if events != [] {
      StepKeeps(l, events[0], solo);
      RunKeeps(Happens(l, events[0], solo), events[1..], solo);
    }
  }

  /** Distinct naturals below `n` are at most `n`. */
  lemma {:induction false} BoundedDistinct(s: seq<nat>, n: nat)
    requires Distinct(s) && forall i :: 0 <= i < |s| ==> s[i] < n
    ensures |s| <= n
  {
    if |s| > 0 {
      assert s[0] < n;
      if n - 1 in s {
        var k :| 0 <= k < |s| && s[k] == n - 1;
        BoundedDistinct(s[..k] + s[k + 1..], n - 1);
      } else {
        forall i | 0 <= i < |s| ensures s[i] < n - 1 {
          assert s[i] in s;
        }
        BoundedDistinct(s, n - 1);
      }
    }
  }

  function Fresh(invoice: Id, at: Time): Link {
    Link(at, at, Opened(invoice, at), {}, [], [])
  }

  function PollLimit(solo: bool): nat {
    if solo then 9 else 18
  }

  lemma InvBoundsPolls(l: Link, solo: bool)
    requires LinkInv(l, solo)
    ensures |l.polls| <= PollLimit(solo)
  {
    forall i | 0 <= i < |l.polls| ensures l.polls[i] < PollLimit(solo) {
      assert InWindow(l, l.polls[i]);
      ClaimsOrdered(l, solo, 0, l.polls[i]);
    }
    BoundedDistinct(l.polls, PollLimit(solo));
  }

  /** However a link's history goes, PayOS is asked about it at most 9 times by a single worker that does
      not crash, and at most 18 times with any number of workers, crashes and hash expiries. */
  lemma PollingIsBounded(invoice: Id, at: Time, events: seq<LinkEvent>, solo: bool)
    requires LinkRuns(Fresh(invoice, at), events, solo)
    ensures |LinkAfter(Fresh(invoice, at), events, solo).polls| <= if solo then 9 else 18
  {
    RunKeeps(Fresh(invoice, at), events, solo);
    InvBoundsPolls(LinkAfter(Fresh(invoice, at), events, solo), solo);
  }

  /** Successive claims of one link are at least a lease apart. */
  lemma ClaimsAreALeaseApart(invoice: Id, at: Time, events: seq<LinkEvent>, solo: bool, i: nat, j: nat)
    requires LinkRuns(Fresh(invoice, at), events, solo)
    requires i < j < |LinkAfter(Fresh(invoice, at), events, solo).claims|
    ensures var l := LinkAfter(Fresh(invoice, at), events, solo);
      l.claims[j] >= l.claims[i] + (j - i) * WORKER_LEASE
  {
    RunKeeps(Fresh(invoice, at), events, solo);
    ClaimsOrdered(LinkAfter(Fresh(invoice, at), events, solo), solo, i, j);
  }

  // ---- A worker's pass over one link -----------------------------------------

  // What a worker finds when it looks a link up: its payment or invoice is missing or another's, the
  // invoice is paid already, PayOS's status for the link, or an error before or during the PayOS call.
  datatype Finding = Unknown | AlreadyPaid | PaidNow | DeadNow | StillOpen | LookupFailed | CallFailed

  predicate AsksPayOs(f: Finding) {
    f.PaidNow? || f.DeadNow? || f.StillOpen? || f.CallFailed?
  }

  predicate RetriesLater(f: Finding) {
    f.StillOpen? || f.LookupFailed? || f.CallFailed?
  }

  /** What a worker's pass leaves of a link's entry: inspected at `at`, dealt with at `later`. */
  function Reconciled(e: Entry, at: Time, finding: Finding, later: Time): Entry {
    if !Open(e, at) then ABSENT
    else if RetriesLater(finding) then Rescheduled(Inspected(e, at), WindowEnd(e.hash.value, at), later)
    else ABSENT
  }

  lemma StepThen(l: Link, e: LinkEvent, rest: seq<LinkEvent>, solo: bool)
    requires CanHappen(l, e, solo) && LinkRuns(Happens(l, e, solo), rest, solo)
    ensures LinkRuns(l, [e] + rest, solo)
    ensures LinkAfter(l, [e] + rest, solo) == LinkAfter(Happens(l, e, solo), rest, solo)
  {
    assert ([e] + rest)[1..] == rest;
  }

  /** A worker's last step with a link, from an open window with or without having asked. */
  lemma PassEnds(l: Link, f: Flight, finding: Finding, later: Time, solo: bool)
    returns (events: seq<LinkEvent>)
    requires f in l.flights && !f.Claimed? && l.now <= later
    ensures LinkRuns(l, events, solo)
    ensures LinkAfter(l, events, solo) == l.(now := later, flights := l.flights - {f},
      entry := if RetriesLater(finding) then Rescheduled(l.entry, f.end, later) else ABSENT)
  {
    var e := if RetriesLater(finding) then TryLater(later, f) else Settle(later, f);
    StepThen(l, e, [], solo);
    events := [e] + [];
  }

  /** A pass is the machine's inspect, ask and settle-or-retry steps, with at most one PayOS call. */
  lemma PassIsSteps(l: Link, n: nat, at: Time, finding: Finding, later: Time, solo: bool)
    returns (events: seq<LinkEvent>)
    requires Claimed(n) in l.flights && l.now <= at <= later
    requires forall f :: f in l.flights && f.claim == n ==> f == Claimed(n)
    ensures LinkRuns(l, events, solo)
    ensures LinkAfter(l, events, solo) == l.(
      now := if Open(l.entry, at) then later else at,
      entry := Reconciled(l.entry, at, finding, later),
      flights := l.flights - {Claimed(n)},
      polls := l.polls + (if Open(l.entry, at) && AsksPayOs(finding) then [n] else []))
  {
    var inspect := Inspect(at, Claimed(n));
    var l1 := Happens(l, inspect, solo);
    if !Open(l.entry, at) {
      StepThen(l, inspect, [], solo);
      events := [inspect] + [];
    } else {
      var ready := Ready(n, WindowEnd(l.entry.hash.value, at));
      var rest: seq<LinkEvent>;
      if AsksPayOs(finding) {
        var l2 := Happens(l1, AskPayOs(at, ready), solo);
        var polled := Polled(n, ready.end);
        assert l2.flights - {polled} == l.flights - {Claimed(n)};
        var last := PassEnds(l2, polled, finding, later, solo);
        StepThen(l1, AskPayOs(at, ready), last, solo);
        rest := [AskPayOs(at, ready)] + last;
      } else {
        assert l1.flights - {ready} == l.flights - {Claimed(n)};
        rest := PassEnds(l1, ready, finding, later, solo);
      }
      StepThen(l, inspect, rest, solo);
      events := [inspect] + rest;
    }
  }

  // ---- The bound is met -----------------------------------------------------

  lemma {:induction false} RunsAppend(l: Link, a: seq<LinkEvent>, b: seq<LinkEvent>, solo: bool)
    requires LinkRuns(l, a, solo) && LinkRuns(LinkAfter(l, a, solo), b, solo)
    ensures LinkRuns(l, a + b, solo)
    ensures LinkAfter(l, a + b, solo) == LinkAfter(LinkAfter(l, a, solo), b, solo)
    decreases |a|
  {
    if a == [] {
      assert a + b == b;
    } else {
      assert (a + b)[1..] == a[1..] + b && (a + b)[0] == a[0];
      RunsAppend(Happens(l, a[0], solo), a[1..], b, solo);
    }
  }

  /** An unpaid link whose window is open, found on time: claimed, asked about, put back. */
  lemma Round(l: Link, invoice: Id, t: Time) returns (events: seq<LinkEvent>)
    requires l.flights == {} && l.now <= t && l.since == t - (|l.claims| + 1) * RECHECK_DELAY
    requires l.entry == Entry(Some(t), Some(Hash(Some(invoice), Some(l.since + RECONCILE_TTL), false)))
    requires |l.claims| < 9
    ensures LinkRuns(l, events, true)
    ensures LinkAfter(l, events, true) ==
      Link(t, l.since, Entry(Some(t + RECHECK_DELAY), l.entry.hash), {}, l.claims + [t], l.polls + [|l.claims|])
  {
    var claimed := Happens(l, Claim(t), true);
    assert claimed.flights - {Claimed(|l.claims|)} == {};
    var pass := PassIsSteps(claimed, |l.claims|, t, StillOpen, t, true);
    StepThen(l, Claim(t), pass, true);
    events := [Claim(t)] + pass;
  }

  lemma {:induction false} Rounds(invoice: Id, at: Time, k: nat) returns (events: seq<LinkEvent>)
    requires k <= 9
    ensures LinkRuns(Fresh(invoice, at), events, true)
    ensures var l := LinkAfter(Fresh(invoice, at), events, true);
      && |l.polls| == k && |l.claims| == k && l.flights == {} && l.since == at && l.now <= at + k * RECHECK_DELAY
      && l.entry
         == Entry(Some(at + (k + 1) * RECHECK_DELAY), Some(Hash(Some(invoice), Some(at + RECONCILE_TTL), false)))
  {
    if k == 0 {
      events := [];
    } else {
      var before := Rounds(invoice, at, k - 1);
      var more := Round(LinkAfter(Fresh(invoice, at), before, true), invoice, at + k * RECHECK_DELAY);
      RunsAppend(Fresh(invoice, at), before, more, true);
      events := before + more;
    }
  }

  /** Nine is not an estimate: an unpaid link, always looked at on time, is asked about nine times. */
  lemma NinePollsHappen(invoice: Id, at: Time)
    ensures exists events | LinkRuns(Fresh(invoice, at), events, true) ::
      |LinkAfter(Fresh(invoice, at), events, true).polls| == 9
  {
    var events := Rounds(invoice, at, 9);
  }

  // ---- The worker -----------------------------------------------------------

  /** What `ZRANGEBYSCORE -inf now LIMIT 0 n` may answer: due links, lowest scores first, none due left out
      unless `n` were found. */
  predicate IsRange(schedule: map<Id, Time>, now: Time, limit: nat, members: seq<Id>) {
    && |members| <= limit && Distinct(members)
    && (forall i :: 0 <= i < |members| ==> members[i] in schedule && schedule[members[i]] <= now)
    && (forall i, j :: 0 <= i < j < |members| ==> schedule[members[i]] <= schedule[members[j]])
    && (forall x :: x in schedule && schedule[x] <= now && x !in members ==>
          |members| == limit && forall i :: 0 <= i < |members| ==> schedule[members[i]] <= schedule[x])
  }

  class ReconcileWorker {
    var schedule: map<Id, Time>
    var hashes: map<Id, Hash>
    var isProcessingDueLinks: bool

    constructor ()
      ensures schedule == map[] && hashes == map[] && !isProcessingDueLinks
    {
      schedule, hashes, isProcessingDueLinks := map[], map[], false;
    }

    function At(link: Id): Entry
      reads this
    {
      Entry(if link in schedule then Some(schedule[link]) else None,
            if link in hashes then Some(hashes[link]) else None)
    }

    method ScheduleReconciliation(invoice: Id, link: Id, now: Time)
      modifies this`schedule, this`hashes
      ensures At(link) == Opened(invoice, now)
      ensures forall x :: x != link ==> At(x) == old(At(x))
    {
      var nextCheckAt := now + FIRST_CHECK_DELAY;
      var expiresAt := now + RECONCILE_TTL;
      hashes := hashes[link := Hash(Some(invoice), Some(expiresAt), false)];
      schedule := schedule[link := nextCheckAt];
    }

    method RemoveReconciliation(link: Id)
      modifies this`schedule, this`hashes
      ensures At(link) == ABSENT
      ensures forall x :: x != link ==> At(x) == old(At(x))
    {
      hashes := hashes - {link};
      schedule := schedule - {link};
    }

    /** Lease what the range query answered. */
    method ClaimDuePaymentLinks(now: Time, members: seq<Id>) returns (claimed: seq<Id>)
      requires IsRange(schedule, now, WORKER_BATCH_SIZE, members)
      modifies this`schedule
      ensures claimed == members
      ensures forall x :: x in members ==> old(Due(At(x), now)) && At(x) == Leased(old(At(x)), now)
      ensures forall x :: x !in members ==> At(x) == old(At(x))
    {
      for i := 0 to |members|
        invariant forall x :: x in schedule <==> x in old(schedule)
        invariant forall x :: x in schedule ==>
          schedule[x] == if x in members[..i] then now + WORKER_LEASE else old(schedule)[x]
      {
        assert members[..i + 1] == members[..i] + [members[i]];
        schedule := schedule[members[i] := now + WORKER_LEASE];
      }
      assert members[..|members|] == members;
      claimed := members;
    }

    method Reschedule(link: Id, expiresAt: Time, now: Time)
      modifies this`schedule, this`hashes
      ensures At(link) == Rescheduled(old(At(link)), expiresAt, now)
      ensures forall x :: x != link ==> At(x) == old(At(x))
    {
      var nextCheckAt := now + RECHECK_DELAY;
      if nextCheckAt > expiresAt {
        RemoveReconciliation(link);
        return;
      }
      if link !in hashes {
        hashes := hashes[link := Hash(None, None, false)];
      }
      schedule := schedule[link := nextCheckAt];
    }

    method ReconcilePaymentLink(link: Id, at: Time, finding: Finding, later: Time) returns (asked: bool)
      requires at <= later
      modifies this`schedule, this`hashes
      ensures At(link) == Reconciled(old(At(link)), at, finding, later)
      ensures asked <==> old(Open(At(link), at)) && AsksPayOs(finding)
      ensures forall x :: x != link ==> At(x) == old(At(x))
    {
      if link !in hashes || hashes[link].invoice.None? || hashes[link].expiresAt.None? {
        RemoveReconciliation(link);
        return false;
      }
      var metadata := hashes[link];
      var expiresAt := metadata.expiresAt.value;
      if metadata.attempts || expiresAt - at > RECONCILE_TTL {
        expiresAt := expiresAt - LEGACY_TTL + RECONCILE_TTL;
        if expiresAt <= at {
          RemoveReconciliation(link);
          return false;
        }
        hashes := hashes[link := Hash(metadata.invoice, Some(expiresAt), false)];
      }
      if expiresAt <= at {
        RemoveReconciliation(link);
        return false;
      }
      asked := AsksPayOs(finding);
      match finding
      case Unknown => RemoveReconciliation(link);
      case AlreadyPaid => RemoveReconciliation(link);
      case PaidNow => RemoveReconciliation(link);
      case DeadNow => RemoveReconciliation(link);
      case StillOpen => Reschedule(link, expiresAt, later);
      case LookupFailed => Reschedule(link, expiresAt, later);
      case CallFailed => Reschedule(link, expiresAt, later);
    }

    /** The claimed links, one after another. */
    method ReconcileClaimed(links: seq<Id>, at: Time, findings: seq<Finding>) returns (asked: nat)
      requires Distinct(links) && |findings| == |links|
      modifies this`schedule, this`hashes
      ensures forall i :: 0 <= i < |links| ==> At(links[i]) == Reconciled(old(At(links[i])), at, findings[i], at)
      ensures forall x :: x !in links ==> At(x) == old(At(x))
      ensures asked <= |links|
    {
      asked := 0;
      for i := 0 to |links|
        invariant asked <= i
        invariant forall k :: 0 <= k < i ==> At(links[k]) == Reconciled(old(At(links[k])), at, findings[k], at)
        invariant forall k :: i <= k < |links| ==> At(links[k]) == old(At(links[k]))
        invariant forall x :: x !in links ==> At(x) == old(At(x))
      {
        var a := ReconcilePaymentLink(links[i], at, findings[i], at);
        if a {
          asked := asked + 1;
        }
      }
    }

    /** One timer tick: nothing if a round is running, else claim and see every claimed link through. */
    method ProcessDuePaymentLinks(now: Time, members: seq<Id>, findings: seq<Finding>) returns (asked: nat)
      requires IsRange(schedule, now, WORKER_BATCH_SIZE, members) && |findings| == |members|
      modifies this
      ensures isProcessingDueLinks == old(isProcessingDueLinks)
      ensures old(isProcessingDueLinks) ==> asked == 0 && schedule == old(schedule) && hashes == old(hashes)
      ensures !old(isProcessingDueLinks) ==> forall i :: 0 <= i < |members| ==>
        At(members[i]) == Reconciled(Leased(old(At(members[i])), now), now, findings[i], now)
      ensures !old(isProcessingDueLinks) ==> forall x :: x !in members ==> At(x) == old(At(x))
      ensures asked <= |members| <= WORKER_BATCH_SIZE
    {
      asked := 0;
      if isProcessingDueLinks {
        return;
      }
      isProcessingDueLinks := true;
      var links := ClaimDuePaymentLinks(now, members);
      asked := ReconcileClaimed(links, now, findings);
      isProcessingDueLinks := false;
    }
  }
}
