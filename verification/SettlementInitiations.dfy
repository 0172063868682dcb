/**
 What starts a payment, run from start to end by itself: the PayPay and the card
 initiation, and the 3DS execution that fetches the challenge page. Each is a thread of the
 protocol; stated here is what it leaves, gateway reply by gateway reply.
 */
module SettlementInitiations {
  import opened Common
  import opened Lifecycle
  import opened SettlementRows
  import opened SettlementModels
  import opened SettlementFlows
  import Protocol = SettlementProtocol

  datatype Outset = CardIsForeign | ApiFails | Opened(refs: nat)

  function Filled(r: Rows, refs: nat): Rows {
    r.(payment := r.payment.(refs := refs))
  }

  // What the gateway does with the request, as the protocol's choice.
  function ChoiceOfOutset(o: Outset): Protocol.Choice {
    match o
    case CardIsForeign => Protocol.CardRejected
    case ApiFails => Protocol.GatewayError
    case Opened(refs) => Protocol.Authenticated(refs)
  }

  // A freshly created payment: its columns come back filled, or both rows are failed.
  lemma PayPayInitiationIsARun(cfg: Protocol.Config, c: Protocol.Cell, t: nat, o: Outset, f: Failures)
    returns (run: seq<Protocol.Label>)
    requires t !in c.threads && RowOk(c.rows.order) && c.rows.payment.status == Pending && !o.CardIsForeign?
    requires f.payment ==> cfg.fallbackWriteMayFail
    ensures IsRun(cfg, c, t,
                  if o.ApiFails? then MarkedFailed(c.rows, f)
                  else
                    var filled := Filled(c.rows, o.refs);
                    Left(if f.promotion then filled else filled.(payment := filled.payment.(status := Processing)), None),
                  c.captured, run)
  {
    hide Protocol.Exec, MarkedFailed, RowOk;
    var c1: Protocol.Cell;
    run, c1 := BegunRun(cfg, c, t, Protocol.InitiatePayPay, Protocol.Go(0));
    assert c1.threads[t] == Protocol.Gateway(Protocol.InitiatePayPay, c.rows.payment, c.rows.order, false);
    run, c1 := OpenedRun(cfg, c, run, c1, t, o);
    if o.ApiFails? {
      run := MarkedRun(cfg, c, run, c1, t, f);
    } else if f.promotion {
      run := UnpromotedRun(cfg, c, run, c1, t);
    } else {
      run, c1 := Protocol.Then(cfg, c, run, c1, Protocol.Act(t, Protocol.Go(0)));
    }
  }

  // The card initiation leaves the status alone; a card of somebody else fails both rows
  // and says so.
  lemma CardInitiationIsARun(cfg: Protocol.Config, c: Protocol.Cell, t: nat, o: Outset, f: Failures)
    returns (run: seq<Protocol.Label>)
    requires t !in c.threads && RowOk(c.rows.order) && c.rows.payment.status == Pending
    requires f.payment ==> cfg.fallbackWriteMayFail
    ensures IsRun(cfg, c, t,
                  match o
                  case CardIsForeign => Settled(c.rows, c.rows.order, false, c.clock, true, f.settling)
                  case ApiFails => MarkedFailed(c.rows, f)
                  case Opened(refs) => Left(Filled(c.rows, refs), None),
                  c.captured, run)
  {
    hide Protocol.Exec, Settled, MarkedFailed, RowOk;
    var c1: Protocol.Cell;
    run, c1 := BegunRun(cfg, c, t, Protocol.InitiateCard, ChoiceOfOutset(o));
    if o.CardIsForeign? {
      run := SettledRun(cfg, c, run, c1, t, false, c.clock, f.settling);
    } else {
      assert c1.threads[t] == Protocol.Gateway(Protocol.InitiateCard, c.rows.payment, c.rows.order, false);
      run, c1 := OpenedRun(cfg, c, run, c1, t, o);
      if o.ApiFails? {
        run := MarkedRun(cfg, c, run, c1, t, f);
      }
    }
  }

  // The gateway's reply to an initiation.
  lemma OpenedRun(cfg: Protocol.Config, c0: Protocol.Cell, run0: seq<Protocol.Label>, c: Protocol.Cell, t: nat, o: Outset)
    returns (run: seq<Protocol.Label>, c': Protocol.Cell)
    requires Protocol.Exec(cfg, c0, run0) == c && t in c.threads && !o.CardIsForeign?
    requires c.threads[t].Gateway? && c.threads[t].flow in {Protocol.InitiatePayPay, Protocol.InitiateCard}
    requires c.threads[t].pay == c.rows.payment
    ensures Protocol.Exec(cfg, c0, run) == c' && c'.captured == c.captured && t in c'.threads
    ensures c'.rows == if o.ApiFails? then c.rows else Filled(c.rows, o.refs)
    ensures var pc := c.threads[t];
            c'.threads[t] == if o.ApiFails? then Protocol.FailingBoth
                             else if pc.flow == Protocol.InitiatePayPay then Protocol.Promote(pc.flow, pc.pay, pc.copy)
                             else Protocol.Done
  {
    hide Protocol.Exec, Protocol.Entered;
    run, c' := Protocol.Then(cfg, c0, run0, c, Protocol.Act(t, ChoiceOfOutset(o)));
  }

  // executePayment of the 3DS service: promotes a payment that is still open, and fails
  // both rows when the gateway refuses.
  lemma ExecuteIsARun(cfg: Protocol.Config, c: Protocol.Cell, t: nat, hasIds: bool, refused: bool, f: Failures)
    returns (run: seq<Protocol.Label>)
    requires t !in c.threads && RowOk(c.rows.order) && (f.payment ==> cfg.fallbackWriteMayFail)
    ensures var promoted := c.rows.(payment := c.rows.payment.(status := Processing));
            IsRun(cfg, c, t,
                  if c.rows.payment.status !in {Pending, Processing} || !hasIds || f.promotion then Left(c.rows, None)
                  else if refused then MarkedFailed(promoted, f)
                  else Left(promoted, None),
                  c.captured, run)
  {
    hide Protocol.Exec, MarkedFailed, RowOk;
    var c1: Protocol.Cell;
    run, c1 := BegunRun(cfg, c, t, Protocol.ThreeDsExecute, if hasIds then Protocol.Go(0) else Protocol.MissingId);
    OpenIsNotTerminal(c.rows.payment.status);
    if c.rows.payment.status in {Pending, Processing} && hasIds {
      assert c1.threads[t] == Protocol.Promote(Protocol.ThreeDsExecute, c.rows.payment, c.rows.order);
      if f.promotion {
        run := UnpromotedRun(cfg, c, run, c1, t);
        return;
      }
      run, c1 := AskedToPay(cfg, c, run, c1, t, refused);
      if refused {
        run := MarkedRun(cfg, c, run, c1, t, f);
      }
    }
  }

  lemma OpenIsNotTerminal(s: PaymentStatus)
    ensures PaymentIsTerminal(s) <==> s !in {Pending, Processing}
  {
    match s
    case Pending =>
    case _ =>
  }

  lemma AskedToPay(cfg: Protocol.Config, c0: Protocol.Cell, run0: seq<Protocol.Label>, c: Protocol.Cell, t: nat, refused: bool)
    returns (run: seq<Protocol.Label>, c': Protocol.Cell)
    requires Protocol.Exec(cfg, c0, run0) == c && t in c.threads && c.rows.payment.status in {Pending, Processing}
    requires c.threads[t] == Protocol.Promote(Protocol.ThreeDsExecute, c.rows.payment, c.rows.order)
    ensures Protocol.Exec(cfg, c0, run) == c' && c'.captured == c.captured && t in c'.threads
    ensures c'.rows == c.rows.(payment := c.rows.payment.(status := Processing))
    ensures c'.threads[t] == if refused then Protocol.FailingBoth else Protocol.Done
  {
    hide Protocol.Exec, Protocol.JobStep, Protocol.OrderMoveStep, CompleteWithOrder, FailWithOrder, FailBoth;
    run, c' := Protocol.Then(cfg, c0, run0, c, Protocol.Act(t, Protocol.Go(0)));
    assert c'.threads[t].Gateway? && c'.threads[t].flow == Protocol.ThreeDsExecute && c'.captured == c.captured;
    run, c' := Protocol.Then(cfg, c0, run, c', Protocol.Act(t, if refused then Protocol.GatewayError else Protocol.Go(0)));
  }
}
