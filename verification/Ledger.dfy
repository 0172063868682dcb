/**
 All orders of the platform at once: each runs the settlement protocol on its own rows,
 interleaved with the others in any way. In every reachable state the completed
 payments and the orders agree on the money, and the analytics queries see orders for
 which the hours of a day add up to the day.
 */
module Ledger {
  import opened Common
  import opened Lifecycle
  import opened SettlementRows
  import opened SettlementProtocol
  import opened SettlementSafety
  import opened SettlementTheorems
  import opened Analytics

  // An order before and after its payment has been initiated.
  datatype Progress = Unpaid(total: nat) | Settling(cell: Cell)

  datatype Site = Site(tenant: nat, date: int, progress: Progress)

  datatype Happening =
    | NewOrder(tenant: nat, date: int, total: nat)
    | Initiate(i: nat, clock: nat)
    | Do(i: nat, l: Label)

  function Happen(cfg: Config, sites: seq<Site>, e: Happening): seq<Site> {
    match e
    case NewOrder(tenant, date, total) => sites + [Site(tenant, date, Unpaid(total))]
    case Initiate(i, clock) =>
      if i < |sites| && sites[i].progress.Unpaid?
      then sites[i := sites[i].(progress := Settling(Initial(sites[i].progress.total, clock)))]
      else sites
    case Do(i, l) =>
      if i < |sites| && sites[i].progress.Settling?
      then sites[i := sites[i].(progress := Settling(Step(cfg, sites[i].progress.cell, l)))]
      else sites
  }

  function HappenAll(cfg: Config, events: seq<Happening>): seq<Site>
    decreases |events|
  {
    if events == [] then [] else Happen(cfg, HappenAll(cfg, events[..|events| - 1]), events[|events| - 1])
  }

  ghost predicate AllOk(cfg: Config, sites: seq<Site>) {
    forall i | 0 <= i < |sites| && sites[i].progress.Settling? ::
      Inv(sites[i].progress.cell) && (sites[i].progress.cell.lost ==> cfg.fallbackWriteMayFail)
  }

  lemma InitialIsOk(total: nat, clock: nat)
    ensures Inv(Initial(total, clock)) && !Initial(total, clock).lost
  {
    var cfg := Config(false);
    assert Exec(cfg, Initial(total, clock), []) == Initial(total, clock);
    RunKeepsInv(cfg, total, clock, []);
  }

  lemma {:induction false} EveryOrderIsOk(cfg: Config, events: seq<Happening>)
    ensures AllOk(cfg, HappenAll(cfg, events))
    decreases |events|
  {
    if events != [] {
      var sites, e := HappenAll(cfg, events[..|events| - 1]), events[|events| - 1];
      EveryOrderIsOk(cfg, events[..|events| - 1]);
      hide Inv, Initial, Step;
      match e
      case NewOrder(_, _, _) =>
      case Initiate(i, clock) =>
        if i < |sites| && sites[i].progress.Unpaid? { InitialIsOk(sites[i].progress.total, clock); }
      case Do(i, l) =>
        if i < |sites| && sites[i].progress.Settling? {
          StepKeepsInv(cfg, sites[i].progress.cell, l);
          StepLoses(cfg, sites[i].progress.cell, l);
        }
    }
  }

  // ----- the money -----

  function CompletedAmount(s: Site): nat {
    if s.progress.Settling? && s.progress.cell.rows.payment.status == PaymentStatus.Completed
    then s.progress.cell.rows.payment.amount else 0
  }

  function TakenTotal(s: Site): nat {
    if s.progress.Settling? && IsPaidFamily(s.progress.cell.rows.order.status)
    then s.progress.cell.rows.order.total else 0
  }

  function Sum(sites: seq<Site>, f: Site -> nat): nat {
    if sites == [] then 0 else Sum(sites[..|sites| - 1], f) + f(sites[|sites| - 1])
  }

  // Money taken for an order that a fallback, having lost its payment write, marked
  // PaymentFailed.
  function Stranded(s: Site): nat {
    if s.progress.Settling? && s.progress.cell.rows.order.status == PaymentFailed then CompletedAmount(s) else 0
  }

  lemma InvMoney(c: Cell)
    requires Inv(c)
    ensures IsPaidFamily(c.rows.order.status) ==> c.rows.payment.status == PaymentStatus.Completed
    ensures c.rows.payment.status == PaymentStatus.Completed ==>
              IsPaidFamily(c.rows.order.status) || (c.lost && c.rows.order.status == PaymentFailed)
    ensures c.rows.payment.amount == c.rows.order.total
    ensures IsSalesStatus(c.rows.order.status) ==> Paid in c.rows.order.at
  {
  }

  lemma {:induction false} MoneyAgrees(cfg: Config, sites: seq<Site>)
    requires AllOk(cfg, sites)
    ensures Sum(sites, CompletedAmount) == Sum(sites, TakenTotal) + Sum(sites, Stranded)
    ensures !cfg.fallbackWriteMayFail ==> Sum(sites, Stranded) == 0
  {
    if sites != [] {
      var last := sites[|sites| - 1];
      MoneyAgrees(cfg, sites[..|sites| - 1]);
      if last.progress.Settling? { InvMoney(last.progress.cell); }
      hide Inv;
    }
  }

  // In every reachable state, the completed payments add up to the totals of the orders
  // in a sales status, Cancelled or Refunded, plus what is stranded: nothing, unless a
  // fallback's payment write can fail by itself.
  lemma LedgerAgrees(cfg: Config, events: seq<Happening>)
    ensures var sites := HappenAll(cfg, events);
            && Sum(sites, CompletedAmount) == Sum(sites, TakenTotal) + Sum(sites, Stranded)
            && (!cfg.fallbackWriteMayFail ==> Sum(sites, CompletedAmount) == Sum(sites, TakenTotal))
  {
    EveryOrderIsOk(cfg, events);
    MoneyAgrees(cfg, HappenAll(cfg, events));
  }

  // ----- what the analytics read -----

  function AsSale(s: Site): Sale {
    match s.progress
    case Unpaid(total) => Sale(s.tenant, s.date, PendingPayment, total, None)
    case Settling(cell) =>
      var o := cell.rows.order;
      Sale(s.tenant, s.date, o.status, o.total, if Paid in o.at then Some(o.at[Paid]) else None)
  }

  function AsSales(sites: seq<Site>): (rows: seq<Sale>)
    ensures |rows| == |sites| && forall i :: 0 <= i < |sites| ==> rows[i] == AsSale(sites[i])
  {
    seq(|sites|, i requires 0 <= i < |sites| => AsSale(sites[i]))
  }

  // Over any run of the whole platform, the twenty-four hours of a tenant's day add up to
  // the daily figure, in money and in number of orders.
  lemma HoursAddUpToDay(cfg: Config, events: seq<Happening>, tenant: nat, date: int)
    ensures var rows := AsSales(HappenAll(cfg, events));
            && HourTotal(rows, tenant, date, 24) == DailySales(rows, tenant, date).totalSales
            && HourCount(rows, tenant, date, 24) == DailySales(rows, tenant, date).orderCount
  {
    EveryOrderIsOk(cfg, events);
    var sites := HappenAll(cfg, events);
    var rows := AsSales(sites);
    forall r | r in rows && IsSalesStatus(r.status) ensures r.paidAt.Some? {
      var i :| 0 <= i < |rows| && rows[i] == r;
      InvMoney(sites[i].progress.cell);
    }
    HoursSumToDay(rows, tenant, date);
  }

  // The sales figures never exceed the completed payments; the difference is what has
  // been cancelled or refunded, and what is stranded.
  function Returned(s: Site): nat {
    if s.progress.Settling? && s.progress.cell.rows.order.status in {Cancelled, Refunded}
    then s.progress.cell.rows.order.total else 0
  }

  function EverySale(): Sale -> bool {
    (r: Sale) => IsSalesStatus(r.status)
  }

  lemma {:induction false} TakenSplits(sites: seq<Site>)
    ensures Sum(sites, TakenTotal) == SumIf(AsSales(sites), EverySale()) + Sum(sites, Returned)
  {
    if sites != [] {
      var n := |sites| - 1;
      assert AsSales(sites)[..n] == AsSales(sites[..n]);
      TakenSplits(sites[..n]);
    }
  }

  lemma SalesPlusReturnsAreThePayments(cfg: Config, events: seq<Happening>)
    ensures var sites := HappenAll(cfg, events);
            SumIf(AsSales(sites), EverySale()) + Sum(sites, Returned) + Sum(sites, Stranded) == Sum(sites, CompletedAmount)
  {
    LedgerAgrees(cfg, events);
    TakenSplits(HappenAll(cfg, events));
  }
}
