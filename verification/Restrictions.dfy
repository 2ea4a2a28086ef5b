/** A provider's restrictions on customers: blocking, terminating with a restriction, and lifting. */
module Restrictions {
  import opened Sums
  import opened Ledger

  type Time = int

  datatype Restriction = Restriction(
    provider: Id,
    customer: Id,
    providerScope: bool,
    deleted: bool,
    endAt: Option<Time>)

  predicate InForce(r: Restriction, provider: Id, customer: Id, now: Time) {
    && r.provider == provider && r.customer == customer && r.providerScope && !r.deleted
    && (r.endAt.None? || r.endAt.value > now)
  }

  predicate Blocked(rs: seq<Restriction>, provider: Id, customer: Id, now: Time) {
    exists k :: 0 <= k < |rs| && InForce(rs[k], provider, customer, now)
  }

  predicate SamePair(r: Restriction, q: Restriction) {
    r.provider == q.provider && r.customer == q.customer
  }

  /** At `now`, each pair of provider and customer has at most one restriction in force. */
  predicate OneEach(rs: seq<Restriction>, now: Time) {
    forall j, k :: 0 <= j < k < |rs| && SamePair(rs[j], rs[k]) ==>
      !(InForce(rs[j], rs[j].provider, rs[j].customer, now) && InForce(rs[k], rs[k].provider, rs[k].customer, now))
  }

  function Fresh(provider: Id, customer: Id): Restriction {
    Restriction(provider, customer, true, false, None)
  }

  function Restricted(rs: seq<Restriction>, provider: Id, customer: Id, now: Time): seq<Restriction> {
    if Blocked(rs, provider, customer, now) then rs else rs + [Fresh(provider, customer)]
  }

  predicate Liftable(rs: seq<Restriction>, k: nat, provider: Id) {
    k < |rs| && rs[k].provider == provider && rs[k].providerScope && !rs[k].deleted && rs[k].endAt.None?
  }

  function Lifted(rs: seq<Restriction>, k: nat, provider: Id, now: Time): seq<Restriction> {
    if Liftable(rs, k, provider) then rs[k := rs[k].(endAt := Some(now))] else rs
  }

  datatype Order =
    | Block(provider: Id, customer: Id, at: Time)
    | TerminateAndRestrict(provider: Id, customer: Id, at: Time)
    | Lift(provider: Id, restriction: nat, at: Time)

  function Ordered(rs: seq<Restriction>, o: Order): seq<Restriction> {
    match o
    case Block(provider, customer, at) => Restricted(rs, provider, customer, at)
    case TerminateAndRestrict(provider, customer, at) => Restricted(rs, provider, customer, at)
    case Lift(provider, k, at) => Lifted(rs, k, provider, at)
  }

  predicate Clocked(orders: seq<Order>) {
    forall j, k :: 0 <= j < k < |orders| ==> orders[j].at <= orders[k].at
  }

  lemma LaterIsFewer(rs: seq<Restriction>, now: Time, later: Time)
    requires OneEach(rs, now) && now <= later
    ensures OneEach(rs, later)
  {
  }

  lemma OrderKeeps(rs: seq<Restriction>, o: Order, now: Time)
    requires OneEach(rs, now) && now <= o.at
    ensures OneEach(Ordered(rs, o), o.at)
  {
    LaterIsFewer(rs, now, o.at);
    if !o.Lift? && !Blocked(rs, o.provider, o.customer, o.at) {
      assert forall k :: 0 <= k < |rs| ==> !InForce(rs[k], o.provider, o.customer, o.at);
    }
  }

  /** Over every run of blocks, terminations and lifts on one clock, at every later moment. */
  lemma {:induction false} OneRestrictionInForce(rs: seq<Restriction>, orders: seq<Order>, start: Time, now: Time)
    requires OneEach(rs, start) && Clocked(orders)
    requires forall k :: 0 <= k < |orders| ==> start <= orders[k].at <= now
    requires start <= now
    ensures OneEach(Folded(Ordered, rs, orders), now)
    ensures orders != [] ==> OneEach(Folded(Ordered, rs, orders), orders[|orders| - 1].at)
  {
    if orders == [] {
      LaterIsFewer(rs, start, now);
    } else {
      var n := |orders| - 1;
      OneRestrictionInForce(rs, orders[..n], start, orders[n].at);
      OrderKeeps(Folded(Ordered, rs, orders[..n]), orders[n], orders[n].at);
      LaterIsFewer(Folded(Ordered, rs, orders), orders[n].at, now);
    }
  }

  /** A lift frees the customer exactly when it ends the one restriction in force. */
  lemma LiftFreesExactly(rs: seq<Restriction>, k: nat, provider: Id, now: Time)
    requires OneEach(rs, now) && k < |rs| && rs[k].provider == provider
    requires Blocked(rs, provider, rs[k].customer, now)
    ensures Blocked(Lifted(rs, k, provider, now), provider, rs[k].customer, now)
      <==> !(InForce(rs[k], provider, rs[k].customer, now) && rs[k].endAt.None?)
  {
    var customer := rs[k].customer;
    var after := Lifted(rs, k, provider, now);
    var j :| 0 <= j < |rs| && InForce(rs[j], provider, customer, now);
    if j != k {
      assert InForce(after[j], provider, customer, now);
    } else if rs[k].endAt.Some? {
      assert InForce(after[k], provider, customer, now);
    } else {
      assert forall i :: 0 <= i < |after| && i != k ==> after[i] == rs[i];
    }
  }

  datatype BlockAnswer = NoContract | AlreadyBlocked | BlockedNow

  class RestrictionStore {
    var restrictions: seq<Restriction>

    constructor ()
      ensures restrictions == []
    {
      restrictions := [];
    }

    method BlockCustomer(provider: Id, customer: Id, hasContract: bool, now: Time) returns (answer: BlockAnswer)
      modifies this
      ensures restrictions
        == if hasContract then Restricted(old(restrictions), provider, customer, now) else old(restrictions)
      ensures answer.BlockedNow? <==> hasContract && !Blocked(old(restrictions), provider, customer, now)
      ensures answer.NoContract? <==> !hasContract
      ensures hasContract ==> Blocked(restrictions, provider, customer, now)
    {
      if !hasContract {
        return NoContract;
      }
      if exists k :: 0 <= k < |restrictions| && InForce(restrictions[k], provider, customer, now) {
        return AlreadyBlocked;
      }
      restrictions := restrictions + [Fresh(provider, customer)];
      answer := BlockedNow;
      assert InForce(restrictions[|restrictions| - 1], provider, customer, now);
    }

    method TerminateWithRestriction(provider: Id, customer: Id, createRestriction: bool, now: Time)
      modifies this
      ensures restrictions ==
        if createRestriction then Restricted(old(restrictions), provider, customer, now) else old(restrictions)
    {
      if createRestriction {
        if !exists k :: 0 <= k < |restrictions| && InForce(restrictions[k], provider, customer, now) {
          restrictions := restrictions + [Fresh(provider, customer)];
        }
      }
    }

    method LiftRestriction(provider: Id, k: nat, now: Time) returns (found: bool)
      modifies this
      ensures restrictions == Lifted(old(restrictions), k, provider, now)
      ensures found <==> Liftable(old(restrictions), k, provider)
    {
      found := k < |restrictions| && restrictions[k].provider == provider && restrictions[k].providerScope
        && !restrictions[k].deleted && restrictions[k].endAt.None?;
      if found {
        restrictions := restrictions[k := restrictions[k].(endAt := Some(now))];
      }
    }
  }
}
