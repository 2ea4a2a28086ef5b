/** The rounded percentages of the two dashboards, over exact amounts. */
module Percentages {
  import opened Sums
  import Contracts

  /** `Math.round(part / total * 100)`: halves go up. */
  function Percent(part: nat, total: nat): nat
    requires total > 0
  {
    (200 * part + total) / (2 * total)
  }

  /** The percentage is the nearest whole number, and of two equally near the larger. */
  lemma PercentIsNearest(part: nat, total: nat)
    requires total > 0
    ensures 2 * total * Percent(part, total) <= 200 * part + total
    ensures 200 * part + total < 2 * total * Percent(part, total) + 2 * total
  {
    var q, n, d := Percent(part, total), 200 * part + total, 2 * total;
    assert n == d * (n / d) + n % d;
    assert d * q == 2 * total * q;
  }

  /** The exact percentage lies halfway between two whole numbers. */
  predicate Halfway(part: nat, total: nat)
    requires total > 0
  {
    2 * total * Percent(part, total) == 200 * part + total
  }

  lemma TimesGrows(d: nat, x: int, y: int)
    requires d > 0 && x < y
    ensures d * x < d * y
  {
    assert d * y == d * x + d * (y - x);
  }

  lemma TimesLess(d: nat, x: int, y: int)
    requires d > 0
    ensures d * x <= d * y <==> x <= y
  {
    if x < y {
      TimesGrows(d, x, y);
    } else if y < x {
      TimesGrows(d, y, x);
    }
  }

  lemma TimesSum(d: nat, x: int, y: int)
    ensures d * (x + y) == d * x + d * y
  {
  }

  datatype Aging = Aging(paid: int, unpaid: int, overdue: int)

  function AgingOf(paid: nat, unpaid: nat, overdue: nat): Aging {
    var total := paid + unpaid + overdue;
    if total == 0 then Aging(0, 0, 0)
    else
      Rounded(Percent(paid, total), Percent(unpaid, total))
  }

  /** The overdue share is what the other two leave of 100, or nothing. */
  function Rounded(paid: int, unpaid: int): Aging {
    Aging(paid, unpaid, if 100 - paid - unpaid < 0 then 0 else 100 - paid - unpaid)
  }

  /** The three ages add up to 100, except that they add up to 101 exactly when nothing is overdue and both
      exact percentages lie halfway. */
  lemma AgingAddsUp(paid: nat, unpaid: nat, overdue: nat)
    requires paid + unpaid + overdue > 0
    ensures var a := AgingOf(paid, unpaid, overdue);
      var total := paid + unpaid + overdue;
      && a.paid + a.unpaid + a.overdue ==
         (if overdue == 0 && Halfway(paid, total) && Halfway(unpaid, total) then 101 else 100)
      && 0 <= a.overdue
  {
    var total := paid + unpaid + overdue;
    var p, u := Percent(paid, total), Percent(unpaid, total);
    PercentIsNearest(paid, total);
    PercentIsNearest(unpaid, total);
    TimesSum(2 * total, p, u);
    assert 2 * total * (p + u) <= 202 * total - 200 * overdue;
    assert 2 * total * 101 == 202 * total;
    if p + u > 100 {
      TimesLess(2 * total, p + u, 101);
    } else if overdue == 0 && Halfway(paid, total) && Halfway(unpaid, total) {
      assert 2 * total * (p + u) == 2 * total * 101;
      TimesLess(2 * total, 101, p + u);
    }
  }

  datatype Shares = Shares(active: int, pending: int, churn: int)

  function SharesOf(active: nat, pending: nat, churn: nat): Shares {
    var total := active + pending + churn;
    if total == 0 then Shares(0, 0, 0)
    else Shares(Percent(active, total), Percent(pending, total), Percent(churn, total))
  }

  /** The three shares add up to 99, 100 or 101. */
  lemma SharesAddUp(active: nat, pending: nat, churn: nat)
    requires active + pending + churn > 0
    ensures var s := SharesOf(active, pending, churn); 99 <= s.active + s.pending + s.churn <= 101
  {
    var total := active + pending + churn;
    var s := SharesOf(active, pending, churn);
    PercentIsNearest(active, total);
    PercentIsNearest(pending, total);
    PercentIsNearest(churn, total);
    var sum := s.active + s.pending + s.churn;
    TimesSum(2 * total, s.active, s.pending);
    TimesSum(2 * total, s.active + s.pending, s.churn);
    assert 2 * total * sum <= 203 * total;
    assert 197 * total < 2 * total * sum;
    assert 2 * total * 102 == 204 * total && 2 * total * 98 == 196 * total;
    TimesLess(2 * total, 102, sum);
    TimesLess(2 * total, sum, 98);
  }

  /** All three sums occur. */
  lemma SharesReachTheBounds()
    ensures SharesOf(1, 1, 1) == Shares(33, 33, 33)
    ensures SharesOf(1, 1, 4) == Shares(17, 17, 67)
    ensures AgingOf(1, 199, 0) == Aging(1, 100, 0)
  {
  }

  // ---- From the grouped rows ------------------------------------------------

  datatype Status = Paid | Unpaid | Overdue

  datatype Group = Group(status: Status, amount: nat)

  function AmountOf(status: Status): Group -> int {
    (g: Group) => if g.status == status then g.amount else 0
  }

  /** One row per status, as grouping by status gives. */
  predicate OneRowEach(groups: seq<Group>) {
    forall i, j :: 0 <= i < j < |groups| ==> groups[i].status != groups[j].status
  }

  lemma {:induction false} NoRowNoAmount(groups: seq<Group>, status: Status)
    requires forall i :: 0 <= i < |groups| ==> groups[i].status != status
    ensures Total(groups, AmountOf(status)) == 0
  {
    TotalZero(groups, AmountOf(status));
  }

  /** With one row to a status, assigning is as good as adding. */
  lemma AssigningAdds(groups: seq<Group>, i: nat, status: Status)
    requires OneRowEach(groups) && i < |groups|
    ensures Total(groups[..i + 1], AmountOf(status))
      == if groups[i].status == status then groups[i].amount else Total(groups[..i], AmountOf(status))
  {
    assert groups[..i + 1] == groups[..i] + [groups[i]];
    TotalSnoc(groups[..i], groups[i], AmountOf(status));
    if groups[i].status == status {
      NoRowNoAmount(groups[..i], status);
    }
  }

  method StatusAmounts(groups: seq<Group>) returns (paidAmount: nat, unpaidAmount: nat, overdueAmount: nat)
    requires OneRowEach(groups)
    ensures paidAmount == Total(groups, AmountOf(Paid))
    ensures unpaidAmount == Total(groups, AmountOf(Unpaid))
    ensures overdueAmount == Total(groups, AmountOf(Overdue))
  {
    paidAmount, unpaidAmount, overdueAmount := 0, 0, 0;
    for i := 0 to |groups|
      invariant paidAmount == Total(groups[..i], AmountOf(Paid))
      invariant unpaidAmount == Total(groups[..i], AmountOf(Unpaid))
      invariant overdueAmount == Total(groups[..i], AmountOf(Overdue))
    {
      AssigningAdds(groups, i, Paid);
      AssigningAdds(groups, i, Unpaid);
      AssigningAdds(groups, i, Overdue);
      var s := groups[i];
      match s.status
      case Paid => paidAmount := s.amount;
      case Unpaid => unpaidAmount := s.amount;
      case Overdue => overdueAmount := s.amount;
    }
    assert groups[..|groups|] == groups;
  }

  /** The locals end up holding each status's sum, so the percentages are of the provider's whole. */
  method GetInvoiceAging(groups: seq<Group>)
    returns (paidAmount: nat, unpaidAmount: nat, overdueAmount: nat, aging: Aging)
    requires OneRowEach(groups)
    ensures paidAmount == Total(groups, AmountOf(Paid))
    ensures unpaidAmount == Total(groups, AmountOf(Unpaid))
    ensures overdueAmount == Total(groups, AmountOf(Overdue))
    ensures aging == AgingOf(paidAmount, unpaidAmount, overdueAmount)
  {
    paidAmount, unpaidAmount, overdueAmount := StatusAmounts(groups);
    var totalAmount := paidAmount + unpaidAmount + overdueAmount;
    if totalAmount == 0 {
      aging := Aging(0, 0, 0);
    } else {
      var paidPct := Percent(paidAmount, totalAmount);
      var unpaidPct := Percent(unpaidAmount, totalAmount);
      aging := Rounded(paidPct, unpaidPct);
    }
  }

  datatype Stage = Running | Waiting | Lost

  function StageOf(status: Contracts.ContractStatus): Stage {
    match status
    case Active => Running
    case PendingSignature => Waiting
    case DraftContract => Waiting
    case PendingPayment => Waiting
    case Expired => Lost
    case Terminated => Lost
    case Cancelled => Lost
  }

  datatype StatusCount = StatusCount(status: Contracts.ContractStatus, count: nat)

  function CountOf(stage: Stage): StatusCount -> int {
    (g: StatusCount) => if StageOf(g.status) == stage then g.count else 0
  }

  /** Contracts counted up by the stage of their status and rounded one by one; no status is left out. */
  method GetStatusDistribution(stats: seq<StatusCount>) returns (active: nat, pending: nat, churn: nat, shares: Shares)
    ensures active == Total(stats, CountOf(Running))
    ensures pending == Total(stats, CountOf(Waiting))
    ensures churn == Total(stats, CountOf(Lost))
    ensures active + pending + churn == Total(stats, (g: StatusCount) => g.count as int)
    ensures shares == SharesOf(active, pending, churn)
  {
    active, pending, churn := 0, 0, 0;
    ghost var whole := (g: StatusCount) => g.count as int;
    for i := 0 to |stats|
      invariant active == Total(stats[..i], CountOf(Running))
      invariant pending == Total(stats[..i], CountOf(Waiting))
      invariant churn == Total(stats[..i], CountOf(Lost))
      invariant active + pending + churn == Total(stats[..i], whole)
    {
      var s := stats[i];
      assert stats[..i + 1] == stats[..i] + [s];
      TotalSnoc(stats[..i], s, CountOf(Running));
      TotalSnoc(stats[..i], s, CountOf(Waiting));
      TotalSnoc(stats[..i], s, CountOf(Lost));
      TotalSnoc(stats[..i], s, whole);
      match StageOf(s.status)
      case Running => active := active + s.count;
      case Waiting => pending := pending + s.count;
      case Lost => churn := churn + s.count;
    }
    assert stats[..|stats|] == stats;
    var total := active + pending + churn;
    if total == 0 {
      shares := Shares(0, 0, 0);
    } else {
      shares := Shares(Percent(active, total), Percent(pending, total), Percent(churn, total));
    }
  }
}
