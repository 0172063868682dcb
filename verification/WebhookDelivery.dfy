/**
 Webhook deliveries from the door to the rows: the unique log row that makes repeated
 deliveries duplicates, the payment a payload means, the fate of a job, and what a
 whole sequence of deliveries does to a payment in process.
 */
module WebhookDelivery {
  import opened Common
  import opened Lifecycle
  import opened SettlementRows
  import opened SettlementProtocol
  import opened SettlementModels
  import Decimal

  // ----- any sequence of deliveries -----

  // `paid` and `accepted` are the clock readings of the handler.
  datatype Delivery = Delivery(kind: WebhookKind, paid: nat, accepted: nat)

  function Handle(r: Rows, d: Delivery): TxResult {
    match d.kind
    case CompletedHook => WebhookCompleted(r, d.paid, d.accepted)
    case FailedHook => WebhookFailed(r)
    case RefundedHook => WebhookRefunded(r)
  }

  function Deliver(r: Rows, d: Delivery): Rows {
    match Handle(r, d)
    case Committed(rows, _) => rows
    case Aborted => r
  }

  function DeliverAll(r: Rows, ds: seq<Delivery>): Rows
    decreases |ds|
  {
    if ds == [] then r else Deliver(DeliverAll(r, ds[..|ds| - 1]), ds[|ds| - 1])
  }

  // The first delivery that settles anything.
  function FirstVerdict(ds: seq<Delivery>): (r: Option<Delivery>)
    ensures r.None? <==> forall d :: d in ds ==> d.kind.RefundedHook?
    ensures r.Some? ==> exists i :: 0 <= i < |ds| && ds[i] == r.value && !r.value.kind.RefundedHook? &&
                          forall j :: 0 <= j < i ==> ds[j].kind.RefundedHook?
  {
    if ds == [] then None
    else if !ds[0].kind.RefundedHook? then Some(ds[0])
    else
      var rest := FirstVerdict(ds[1..]);
      assert forall i :: 0 < i < |ds| ==> ds[i] == ds[1..][i - 1];
      rest
  }

  ghost predicate Settled(r: Rows) {
    || (r.payment.status == PaymentStatus.Completed && r.order.status == Accepted)
    || (r.payment.status == Failed && r.order.status == PaymentFailed)
  }

  lemma SettledIsAbsorbing(r: Rows, d: Delivery)
    requires Settled(r)
    ensures Deliver(r, d) == r
  {
  }

  lemma VerdictSettles(r: Rows, d: Delivery)
    requires Agree(r, false, false) && r.payment.status == Processing
    ensures d.kind.RefundedHook? ==> Deliver(r, d) == r
    ensures !d.kind.RefundedHook? ==> Settled(Deliver(r, d))
    ensures d.kind.CompletedHook? ==> Deliver(r, d).order.status == Accepted
    ensures d.kind.FailedHook? ==> Deliver(r, d).order.status == PaymentFailed
  {
    WebhookCompletedMeaning(r, false, false, d.paid, d.accepted);
    WebhookFailedMeaning(r, false, false);
    WebhookRefundedMeaning(r, false, false);
  }

  // Whatever arrives, in whatever order and however often, the outcome is that of the
  // first completed or failed delivery alone, down to the timestamps.
  lemma {:induction false} FirstVerdictDecides(r: Rows, ds: seq<Delivery>)
    requires Agree(r, false, false) && r.payment.status == Processing
    ensures match FirstVerdict(ds)
            case None => DeliverAll(r, ds) == r
            case Some(d) => DeliverAll(r, ds) == Deliver(r, d) && Settled(Deliver(r, d))
    decreases |ds|
  {
    if ds == [] {
      assert FirstVerdict(ds) == None;
    } else {
      var front, last := ds[..|ds| - 1], ds[|ds| - 1];
      hide FirstVerdict, Deliver, Agree, Settled;
      FirstVerdictDecides(r, front);
      FirstVerdictSnoc(front, last);
      assert ds == front + [last];
      VerdictSettles(r, last);
      if FirstVerdict(front).Some? {
        SettledIsAbsorbing(Deliver(r, FirstVerdict(front).value), last);
      }
    }
  }

  lemma {:induction false} FirstVerdictSnoc(ds: seq<Delivery>, d: Delivery)
    ensures FirstVerdict(ds + [d]) ==
            if FirstVerdict(ds).Some? then FirstVerdict(ds)
            else if d.kind.RefundedHook? then None else Some(d)
  {
    if ds == [] {
      assert [d][1..] == [] && [] + [d] == [d];
    } else {
      assert (ds + [d])[1..] == ds[1..] + [d];
      FirstVerdictSnoc(ds[1..], d);
    }
  }

  // ----- one log row per key -----

  datatype LogKey = LogKey(tenant: nat, eventType: string, fincodeId: string)

  // A request in findOrCreateLog. Without a gateway id nothing is looked up.
  datatype LogPc =
    | Looking(key: Option<LogKey>)
    | Inserting(missing: LogKey)
    | Answered(key: Option<LogKey>, isDuplicate: bool)

  datatype LogTable = LogTable(keys: set<LogKey>, callers: map<nat, LogPc>)

  datatype LogLabel = Arrive(t: nat, key: Option<LogKey>) | Proceed(t: nat)

  // The select and the insert of firstOrCreate are separate steps; the unique key
  // turns a lost race into a duplicate.
  function LogStep(s: LogTable, l: LogLabel): LogTable {
    match l
    case Arrive(t, key) =>
      if t in s.callers then s else s.(callers := s.callers[t := Looking(key)])
    case Proceed(t) =>
      if t !in s.callers then s
      else
        match s.callers[t]
        case Looking(None) => s.(callers := s.callers[t := Answered(None, false)])
        case Looking(Some(k)) =>
          s.(callers := s.callers[t := if k in s.keys then Answered(Some(k), true) else Inserting(k)])
        case Inserting(k) =>
          LogTable(s.keys + {k}, s.callers[t := Answered(Some(k), k in s.keys)])
        case Answered(_, _) => s
  }

  function LogRun(run: seq<LogLabel>): LogTable
    decreases |run|
  {
    if run == [] then LogTable({}, map[]) else LogStep(LogRun(run[..|run| - 1]), run[|run| - 1])
  }

  ghost predicate Owner(s: LogTable, t: nat, k: LogKey) {
    t in s.callers && s.callers[t] == Answered(Some(k), false)
  }

  ghost predicate OneOwner(s: LogTable) {
    && (forall k, t, t' :: Owner(s, t, k) && Owner(s, t', k) ==> t == t')
    && (forall k :: k in s.keys <==> exists t :: Owner(s, t, k))
    && (forall t, k, d :: t in s.callers && s.callers[t] == Answered(Some(k), d) ==> k in s.keys)
  }

  lemma LogStepKeepsOneOwner(s: LogTable, l: LogLabel)
    requires OneOwner(s)
    ensures OneOwner(LogStep(s, l))
  {
    var s' := LogStep(s, l);
    forall k, t | Owner(s, t, k) ensures Owner(s', t, k) {
    }
    forall k, t | Owner(s', t, k) ensures Owner(s, t, k) || (l == Proceed(t) && k !in s.keys) {
    }
    forall k, t | Owner(s, t, k) ensures k in s.keys {
    }
    if l.Proceed? && l.t in s.callers && s.callers[l.t].Inserting? {
      var k := s.callers[l.t].missing;
      if k !in s.keys {
        assert Owner(s', l.t, k);
        forall t | Owner(s', t, k) ensures t == l.t {
          assert t != l.t ==> Owner(s, t, k);
        }
      } else {
        var t :| Owner(s, t, k);
        assert Owner(s', t, k);
      }
    }
    forall k | k in s'.keys ensures exists t :: Owner(s', t, k) {
      if k in s.keys {
        var t :| Owner(s, t, k);
        assert Owner(s', t, k);
      }
    }
    forall k, t | Owner(s', t, k) ensures k in s'.keys {
      if Owner(s, t, k) { assert k in s.keys; }
    }
  }

  // Among all requests under one key, once any has been answered, exactly one was told
  // that its delivery is new.
  lemma {:induction false} ExactlyOneNonDuplicate(run: seq<LogLabel>)
    ensures OneOwner(LogRun(run))
    ensures forall t, k, d :: t in LogRun(run).callers && LogRun(run).callers[t] == Answered(Some(k), d) ==>
              exists u :: Owner(LogRun(run), u, k) && forall v :: Owner(LogRun(run), v, k) ==> v == u
    decreases |run|
  {
    if run == [] {
    } else {
      ExactlyOneNonDuplicate(run[..|run| - 1]);
      LogStepKeepsOneOwner(LogRun(run[..|run| - 1]), run[|run| - 1]);
    }
    forall t, k, d | t in LogRun(run).callers && LogRun(run).callers[t] == Answered(Some(k), d)
      ensures exists u :: Owner(LogRun(run), u, k) && forall v :: Owner(LogRun(run), v, k) ==> v == u
    {
      assert k in LogRun(run).keys;
      var u :| Owner(LogRun(run), u, k);
      assert forall v :: Owner(LogRun(run), v, k) ==> v == u;
    }
  }

  lemma {:induction false} OwnerStays(run: seq<LogLabel>, more: seq<LogLabel>, u: nat, k: LogKey)
    requires Owner(LogRun(run), u, k)
    ensures Owner(LogRun(run + more), u, k)
    decreases |more|
  {
    if more == [] {
      assert run + more == run;
    } else {
      var rest := more[..|more| - 1];
      assert (run + more)[..|run + more| - 1] == run + rest;
      OwnerStays(run, rest, u, k);
    }
  }

  // Once a key has its row, every later request under it is told that it is a duplicate,
  // and a duplicate is acknowledged without a job.
  lemma RepetitionsAreDuplicates(run: seq<LogLabel>, more: seq<LogLabel>, t: nat, k: LogKey, isDuplicate: bool)
    requires k in LogRun(run).keys && t !in LogRun(run).callers
    requires t in LogRun(run + more).callers && LogRun(run + more).callers[t] == Answered(Some(k), isDuplicate)
    ensures isDuplicate
  {
    ExactlyOneNonDuplicate(run);
    ExactlyOneNonDuplicate(run + more);
    var u :| Owner(LogRun(run), u, k);
    OwnerStays(run, more, u, k);
    assert isDuplicate || Owner(LogRun(run + more), t, k);
  }

  // Without a gateway id nothing can be a duplicate, and with one nobody is told so
  // unless somebody else has been told that the delivery is new.
  lemma DuplicatesHaveAnOriginal(run: seq<LogLabel>, t: nat, key: Option<LogKey>)
    requires t in LogRun(run).callers && LogRun(run).callers[t] == Answered(key, true)
    ensures key.Some? && exists u :: u != t && Owner(LogRun(run), u, key.value)
  {
    KeylessIsNew(run);
    ExactlyOneNonDuplicate(run);
  }

  lemma {:induction false} KeylessIsNew(run: seq<LogLabel>)
    ensures forall t :: t in LogRun(run).callers ==> LogRun(run).callers[t] != Answered(None, true)
    decreases |run|
  {
    if run != [] { KeylessIsNew(run[..|run| - 1]); }
  }

  // ----- the payment a payload means -----

  // A value in the decoded payload; other JSON values carry no id.
  datatype Json = JString(s: string) | JInt(n: int) | JOther

  datatype PaymentRef = PaymentRef(id: nat, tenant: nat, fincodeId: Option<string>)

  datatype ResolveError = NotFound(fincodeId: string) | NoTenant

  function NormalizeFincodeId(candidate: Json): Option<string> {
    match candidate
    case JString(s) => if s != "" then Some(s) else None
    case JInt(n) => Some(Decimal.OfInt(n))
    case JOther => None
  }

  function FirstNonEmpty(candidates: seq<Json>): Option<string> {
    if candidates == [] then None
    else if NormalizeFincodeId(candidates[0]).Some? then NormalizeFincodeId(candidates[0])
    else FirstNonEmpty(candidates[1..])
  }

  lemma {:induction false} FirstNonEmptySnoc(cs: seq<Json>, c: Json)
    ensures FirstNonEmpty(cs + [c]) ==
            if FirstNonEmpty(cs).Some? then FirstNonEmpty(cs) else NormalizeFincodeId(c)
  {
    if cs == [] {
      assert [c][1..] == [] && [] + [c] == [c];
    } else {
      assert (cs + [c])[1..] == cs[1..] + [c];
      FirstNonEmptySnoc(cs[1..], c);
    }
  }

  predicate Matches(p: PaymentRef, tenant: nat, id: string) {
    p.tenant == tenant && p.fincodeId == Some(id)
  }

  // `->first()`: the first row in table order.
  function FirstMatch(table: seq<PaymentRef>, tenant: nat, id: string): (r: Option<PaymentRef>)
    ensures r.Some? ==> r.value in table && Matches(r.value, tenant, id)
    ensures r.None? ==> forall p :: p in table ==> !Matches(p, tenant, id)
  {
    if table == [] then None
    else if Matches(table[0], tenant, id) then Some(table[0])
    else FirstMatch(table[1..], tenant, id)
  }

  ghost predicate Hits(candidate: Json, tenant: nat, table: seq<PaymentRef>) {
    var id := NormalizeFincodeId(candidate);
    id.Some? && exists p :: p in table && p.tenant == tenant && p.fincodeId == id
  }

  // A text names itself, a number the text that reads back as it.
  ghost predicate Names(c: Json, id: string) {
    match c
    case JString(s) => s != "" && id == s
    case JInt(n) =>
      if n < 0 then id != "" && id[0] == '-' && Decimal.IsNumeral(id[1..]) && -Decimal.ValueOf(id[1..]) == n
      else Decimal.IsNumeral(id) && Decimal.ValueOf(id) == n
    case JOther => false
  }

  lemma NormalizedNames(c: Json)
    ensures NormalizeFincodeId(c).Some? <==> c.JInt? || (c.JString? && c.s != "")
    ensures NormalizeFincodeId(c).Some? ==> Names(c, NormalizeFincodeId(c).value)
  {
    if c.JInt? {
      Decimal.OfIntReadsBack(c.n);
      hide Decimal.IsNumeral, Decimal.ValueOf;
    }
  }

  // The payload's id, then its order id, then the id stored with the log: the first
  // one that is the gateway id of a payment of this tenant decides. Numbers stand for
  // their decimal form.
  method ResolvePaymentFromPayload(tenant: Option<nat>, candidates: seq<Json>, table: seq<PaymentRef>)
    returns (r: Result<PaymentRef, ResolveError>)
    ensures r.Success? ==>
              && tenant.Some? && r.value in table
              && exists i :: 0 <= i < |candidates| && NormalizeFincodeId(candidates[i]).Some?
                   && Matches(r.value, tenant.value, NormalizeFincodeId(candidates[i]).value)
                   && forall j :: 0 <= j < i ==> !Hits(candidates[j], tenant.value, table)
    ensures r.Success? ==>
              && r.value.tenant == tenant.value && r.value.fincodeId.Some?
              && exists c :: c in candidates && Names(c, r.value.fincodeId.value)
    ensures r.Failure? && r.error.NotFound? ==>
              && (tenant.Some? ==> forall c :: c in candidates ==> !Hits(c, tenant.value, table))
              && (tenant.None? ==> forall c :: c in candidates ==> NormalizeFincodeId(c).None?)
              && r.error.fincodeId == FirstNonEmpty(candidates).GetOr("unknown")
    ensures r == Failure(NoTenant) <==>
              tenant.None? && exists c :: c in candidates && NormalizeFincodeId(c).Some?
  {
    var firstNonEmpty: Option<string> := None;
    var i := 0;
    while i < |candidates|
      invariant 0 <= i <= |candidates|
      invariant forall j :: 0 <= j < i ==>
                  if tenant.Some? then !Hits(candidates[j], tenant.value, table)
                  else NormalizeFincodeId(candidates[j]).None?
      invariant firstNonEmpty == FirstNonEmpty(candidates[..i])
    {
      var id := NormalizeFincodeId(candidates[i]);
      assert candidates[..i + 1] == candidates[..i] + [candidates[i]];
      FirstNonEmptySnoc(candidates[..i], candidates[i]);
      if id.Some? {
        if firstNonEmpty.None? {
          firstNonEmpty := id;
        }
        if tenant.None? {
          return Failure(NoTenant);
        }
        var payment := FirstMatch(table, tenant.value, id.value);
        if payment.Some? {
          NormalizedNames(candidates[i]);
          return Success(payment.value);
        }
      }
      i := i + 1;
    }
    assert candidates[..i] == candidates;
    r := Failure(NotFound(firstNonEmpty.GetOr("unknown")));
  }

  // A payload cannot reach a payment of another tenant, and two numeric ids mean the
  // same payment only if they are the same number.
  lemma ResolutionIsExact(table: seq<PaymentRef>, tenant: nat, n: int, m: int, p: PaymentRef)
    requires p in table
    requires Matches(p, tenant, NormalizeFincodeId(JInt(n)).value)
    requires Matches(p, tenant, NormalizeFincodeId(JInt(m)).value)
    ensures n == m
  {
    Decimal.OfIntInjective(n, m);
  }

  // ----- what an event asks for -----

  const SUPPORTED_EVENTS := {
    "payment.completed", "payment.failed", "payment.refunded",
    "payments.paypay.regis", "payments.paypay.exec", "payments.paypay.capture", "payments.paypay.complete"}

  // processEvent and handlePayPayEvent: None marks the log processed and does no more.
  function Route(eventType: string, payPayStatus: Option<string>): Option<WebhookKind> {
    if eventType !in SUPPORTED_EVENTS then None
    else if eventType == "payment.completed" then Some(CompletedHook)
    else if eventType == "payment.failed" then Some(FailedHook)
    else if eventType == "payment.refunded" then Some(RefundedHook)
    else if payPayStatus == Some("CAPTURED") then Some(CompletedHook)
    else if payPayStatus in {Some("CANCELED"), Some("EXPIRED"), Some("FAILED")} then Some(FailedHook)
    else None
  }

  // ----- the fate of a job -----

  datatype JobOutcome = Processed | FinalFailure | Retried

  function EventOf(kind: WebhookKind): Event {
    if kind.CompletedHook? then CompletedEvent else FailedEvent
  }

  // A payment under way, its order waiting.
  ghost predicate IsOpen(r: Rows) {
    Agree(r, false, false) && r.payment.status == Processing
  }

  predicate IsPayPay(eventType: string, status: Option<string>, statuses: set<string>) {
    && eventType in {"payments.paypay.regis", "payments.paypay.exec", "payments.paypay.capture", "payments.paypay.complete"}
    && status.Some? && status.value in statuses
  }

  // The three handlers on rows as they are.
  lemma HandlersMeaning(r: Rows, paid: nat, accepted: nat)
    ensures IsOpen(r) ==>
              && WebhookCompleted(r, paid, accepted) ==
                 Committed(Rows(OrderRow(Accepted, r.order.at[Paid := paid][Accepted := accepted], r.order.total),
                                r.payment.(status := PaymentStatus.Completed)), true)
              && WebhookFailed(r) ==
                 Committed(Rows(OrderRow(PaymentFailed, r.order.at, r.order.total), r.payment.(status := Failed)), true)
    ensures RowOk(r.order) ==>
              WebhookRefunded(r) ==
              Committed(if r.order.status == Cancelled then r.(order := r.order.(status := Refunded)) else r, false)
  {
    if IsOpen(r) {
      WebhookCompletedMeaning(r, false, false, paid, accepted);
      WebhookFailedMeaning(r, false, false);
    }
    if RowOk(r.order) {
      StaleSave(r.order, r.order, Refunded, 0);
    }
    hide RowOk, WebhookCompleted, WebhookFailed, OrderTo;
  }

  // ProcessPaymentWebhookJob::handle with processEvent; `resolved` is what looking the
  // payment up comes to, `dbFails` a QueryException anywhere. Events that settle nothing
  // are marked processed without looking for a payment.
  method RunJob(service: WebhookService, eventType: string, payPayStatus: Option<string>,
                resolved: Result<PaymentRef, ResolveError>, paid: nat, accepted: nat, dbFails: bool)
    returns (outcome: JobOutcome, fires: bool)
    modifies service.db
    ensures match Route(eventType, payPayStatus)
            case None =>
              && outcome == (if dbFails then Retried else Processed)
              && service.db.Stored() == old(service.db.Stored()) && !fires
            case Some(kind) =>
              var tx := Handle(old(service.db.Stored()), Delivery(kind, paid, accepted));
              && outcome == Fate(resolved, tx, dbFails)
              && (outcome.Processed? ==> tx == Committed(service.db.Stored(), fires))
              && (!outcome.Processed? ==> service.db.Stored() == old(service.db.Stored()) && !fires)
              && (fires ==> service.db.dispatched == old(service.db.dispatched) + [EventOf(kind)])
    // The same in rows, event by event, for a known payment whose order is waiting.
    ensures old(IsOpen(service.db.Stored())) && resolved.Success? && !dbFails &&
            (eventType == "payment.completed" || IsPayPay(eventType, payPayStatus, {"CAPTURED"})) ==>
              var r := old(service.db.Stored());
              && outcome == Processed
              && service.db.payment == r.payment.(status := PaymentStatus.Completed)
              && service.db.order == OrderRow(Accepted, r.order.at[Paid := paid][Accepted := accepted], r.order.total)
              && service.db.dispatched == old(service.db.dispatched) + [CompletedEvent]
    ensures old(IsOpen(service.db.Stored())) && resolved.Success? && !dbFails &&
            (eventType == "payment.failed" || IsPayPay(eventType, payPayStatus, {"CANCELED", "EXPIRED", "FAILED"})) ==>
              var r := old(service.db.Stored());
              && outcome == Processed
              && service.db.payment == r.payment.(status := Failed)
              && service.db.order == OrderRow(PaymentFailed, r.order.at, r.order.total)
              && service.db.dispatched == old(service.db.dispatched) + [FailedEvent]
    // A refund moves a Cancelled order, whatever the payment, and nothing else.
    ensures old(RowOk(service.db.order)) && resolved.Success? && !dbFails && eventType == "payment.refunded" ==>
              var r := old(service.db.Stored());
              && outcome == Processed
              && service.db.payment == r.payment
              && service.db.order == (if r.order.status == Cancelled then r.order.(status := Refunded) else r.order)
              && service.db.dispatched == old(service.db.dispatched)
    // Every other event, and every other PayPay status, is acknowledged and no more.
    ensures eventType !in {"payment.completed", "payment.failed", "payment.refunded"} &&
            !IsPayPay(eventType, payPayStatus, {"CAPTURED", "CANCELED", "EXPIRED", "FAILED"}) ==>
              && outcome == (if dbFails then Retried else Processed)
              && service.db.Stored() == old(service.db.Stored())
              && service.db.dispatched == old(service.db.dispatched)
    // What an event that settles something comes to when its payment cannot be had.
    ensures eventType in {"payment.completed", "payment.failed", "payment.refunded"} && (resolved.Failure? || dbFails) ==>
              && outcome == (if resolved.Failure? && resolved.error.NotFound? then FinalFailure else Retried)
              && service.db.Stored() == old(service.db.Stored())
              && service.db.dispatched == old(service.db.dispatched)
    ensures !fires ==> service.db.dispatched == old(service.db.dispatched)
    ensures service.db.logProcessed == (outcome.Processed? || old(service.db.logProcessed))
  {
    HandlersMeaning(service.db.Stored(), paid, accepted);
    hide WebhookCompleted, WebhookFailed, WebhookRefunded, IsOpen, RowOk;
    fires := false;
    var route := Route(eventType, payPayStatus);
    if route.None? {
      if dbFails {
        return Retried, false;
      }
      service.db.logProcessed := true;
      return Processed, false;
    }
    match resolved {
      case Failure(NotFound(_)) => return FinalFailure, false;
      case Failure(NoTenant) => return Retried, false;
      case Success(_) =>
    }
    if dbFails {
      return Retried, false;
    }
    var ok := true;
    match route.value {
      case CompletedHook => ok, fires := service.HandlePaymentCompleted(paid, accepted);
      case FailedHook => fires := service.HandlePaymentFailed();
      case RefundedHook => fires := service.HandlePaymentRefunded();
    }
    outcome := if ok then Processed else FinalFailure;
  }

  // A missing payment and a refused transition are final, everything else is retried.
  function Fate(resolved: Result<PaymentRef, ResolveError>, tx: TxResult, dbFails: bool): JobOutcome {
    match resolved
    case Failure(NotFound(_)) => FinalFailure
    case Failure(NoTenant) => Retried
    case Success(_) => if dbFails then Retried else if tx.Aborted? then FinalFailure else Processed
  }

  // Which deliveries for a known payment are refused for good: a completed one that
  // finds the payment Failed, or still Pending. In the second case the delivery is
  // lost, since `RepetitionsAreDuplicates`.
  lemma RefusedForGood(r: Rows, split: bool, lost: bool, d: Delivery, p: PaymentRef)
    requires Agree(r, split, lost)
    ensures Fate(Success(p), Handle(r, d), false).FinalFailure? <==>
            d.kind.CompletedHook? && r.payment.status in {Pending, Failed}
  {
    WebhookCompletedMeaning(r, split, lost, d.paid, d.accepted);
    WebhookFailedMeaning(r, split, lost);
    WebhookRefundedMeaning(r, split, lost);
  }

  // The webhook that overtakes the promotion to Processing: the payment is as it was
  // created, and the delivery is lost.
  lemma EarlyDeliveryIsLost(total: nat, clock: nat, p: PaymentRef)
    ensures var r := Initial(total, clock).rows; var d := Delivery(CompletedHook, clock, clock);
            Agree(r, false, false) && Fate(Success(p), Handle(r, d), false) == FinalFailure && Deliver(r, d) == r
  {
    var r := Initial(total, clock).rows;
    RefusedForGood(r, false, false, Delivery(CompletedHook, clock, clock), p);
    WebhookCompletedMeaning(r, false, false, clock, clock);
  }

  // ----- a job is a run of the protocol -----

  // A job that meets the given number of database errors before it gets through.
  function JobRun(t: nat, kind: WebhookKind, failures: nat): seq<Label> {
    if failures == 0 then [StartJob(t, kind)] else JobRun(t, kind, failures - 1) + [Act(t, Abort)]
  }

  lemma ExecOneMore(cfg: Config, c: Cell, run: seq<Label>, l: Label)
    ensures Exec(cfg, c, run + [l]) == Step(cfg, Exec(cfg, c, run), l)
  {
    assert (run + [l])[..|run|] == run;
    hide Step;
  }

  lemma JobStarts(cfg: Config, c: Cell, t: nat, kind: WebhookKind)
    requires t !in c.threads
    ensures Exec(cfg, c, [StartJob(t, kind)]) == Goto(c, t, Job(kind, 1))
  {
    ExecOneMore(cfg, c, [], StartJob(t, kind));
    assert [] + [StartJob(t, kind)] == [StartJob(t, kind)];
    assert Exec(cfg, c, []) == c;
    hide Exec, ActStep;
  }

  lemma JobActs(cfg: Config, c: Cell, t: nat, kind: WebhookKind, attempt: nat, ch: Choice)
    requires t in c.threads && c.threads[t] == Job(kind, attempt)
    ensures Step(cfg, c, Act(t, ch)) == JobStep(c, t, kind, attempt, ch)
  {
    hide JobStep, GatewayStep, PromoteStep, OrderMoveStep, FallbackPaymentStep, AfterTx, AfterBegin;
  }

  lemma JobAborts(cfg: Config, c: Cell, t: nat, kind: WebhookKind, attempt: nat)
    ensures Step(cfg, Goto(c, t, Job(kind, attempt)), Act(t, Abort)) ==
            Goto(c, t, if attempt < JOB_TRIES then Job(kind, attempt + 1) else Done)
  {
    var tried := Goto(c, t, Job(kind, attempt));
    JobActs(cfg, tried, t, kind, attempt, Abort);
    hide Step, AfterTx, WebhookCompleted, WebhookFailed, WebhookRefunded;
    var next := if attempt < JOB_TRIES then Job(kind, attempt + 1) else Done;
    assert JobStep(tried, t, kind, attempt, Abort) == Goto(tried, t, next);
    assert tried.threads[t := next] == c.threads[t := next];
  }

  lemma {:induction false} FailingJob(cfg: Config, c: Cell, t: nat, kind: WebhookKind, failures: nat)
    requires t !in c.threads && failures <= 3
    ensures Exec(cfg, c, JobRun(t, kind, failures)) ==
            Goto(c, t, if failures < 3 then Job(kind, failures + 1) else Done)
  {
    hide Exec, Step, Goto;
    if failures == 0 {
      JobStarts(cfg, c, t, kind);
    } else {
      FailingJob(cfg, c, t, kind, failures - 1);
      ExecOneMore(cfg, c, JobRun(t, kind, failures - 1), Act(t, Abort));
      JobAborts(cfg, c, t, kind, failures);
    }
  }

  lemma GivenUp(cfg: Config, c: Cell, t: nat, ch: Choice)
    requires t in c.threads && c.threads[t] == Done
    ensures Step(cfg, c, Act(t, ch)) == c
  {
    hide JobStep, GatewayStep, PromoteStep, OrderMoveStep, FallbackPaymentStep, AfterTx, AfterBegin;
  }

  lemma AfterTxMeaning(c: Cell, t: nat, tx: TxResult, notify: bool, event: Event)
    ensures var c' := AfterTx(c, t, tx, notify, event);
            && t in c'.threads && c'.rows == (if tx.Committed? then tx.rows else c.rows)
            && c'.threads[t] == (if tx.Committed? && tx.fires && notify then Dispatch(event) else Done)
  {
    hide Entered;
  }

  // The transaction of a job that no database error stops.
  lemma JobStepMeaning(c: Cell, t: nat, kind: WebhookKind, attempt: nat, elapsed: nat)
    ensures var c', d := JobStep(c, t, kind, attempt, Go(elapsed)), Delivery(kind, c.clock, c.clock + elapsed);
            && t in c'.threads && c'.rows == Deliver(c.rows, d)
            && c'.threads[t] == (if Handle(c.rows, d).Committed? && Handle(c.rows, d).fires
                                 then Dispatch(EventOf(kind)) else Done)
  {
    RefundsFireNothing(c.rows);
    hide AfterTx, Goto, Commit, WebhookCompleted, WebhookFailed, WebhookRefunded;
    match kind
    case CompletedHook =>
      var later := c.(clock := c.clock + elapsed);
      AfterTxMeaning(later, t, WebhookCompleted(c.rows, c.clock, c.clock + elapsed), true, CompletedEvent);
    case FailedHook => AfterTxMeaning(c, t, WebhookFailed(c.rows), true, FailedEvent);
    case RefundedHook => AfterTxMeaning(c, t, WebhookRefunded(c.rows), false, CompletedEvent);
  }

  lemma JobCommits(cfg: Config, c: Cell, t: nat, kind: WebhookKind, attempt: nat, elapsed: nat)
    requires t in c.threads && c.threads[t] == Job(kind, attempt)
    ensures var d := Delivery(kind, c.clock, c.clock + elapsed);
            var c' := Step(cfg, c, Act(t, Go(elapsed)));
            && t in c'.threads && c'.rows == Deliver(c.rows, d)
            && c'.threads[t] == (if Handle(c.rows, d).Committed? && Handle(c.rows, d).fires
                                 then Dispatch(EventOf(kind)) else Done)
  {
    hide *;
    JobActs(cfg, c, t, kind, attempt, Go(elapsed));
    JobStepMeaning(c, t, kind, attempt, elapsed);
  }

  lemma JobIsThere(c: Cell, t: nat, pc: Pc)
    ensures var c' := Goto(c, t, pc); t in c'.threads && c'.threads[t] == pc && c'.rows == c.rows && c'.clock == c.clock
  {
  }

  // Up to two database errors are survived: the job then leaves the rows its delivery
  // leaves, with its event outstanding. After the third it gives up and has changed nothing.
  lemma JobIsARun(cfg: Config, c: Cell, t: nat, kind: WebhookKind, failures: nat, elapsed: nat)
    requires t !in c.threads && failures <= 3
    ensures var d := Delivery(kind, c.clock, c.clock + elapsed);
            var c' := Exec(cfg, c, JobRun(t, kind, failures) + [Act(t, Go(elapsed))]);
            && t in c'.threads
            && c'.rows == (if failures < 3 then Deliver(c.rows, d) else c.rows)
            && c'.threads[t] == (if failures < 3 && Handle(c.rows, d).Committed? && Handle(c.rows, d).fires
                                 then Dispatch(EventOf(kind)) else Done)
  {
    hide *;
    var go := Act(t, Go(elapsed));
    FailingJob(cfg, c, t, kind, failures);
    ExecOneMore(cfg, c, JobRun(t, kind, failures), go);
    JobIsThere(c, t, if failures < 3 then Job(kind, failures + 1) else Done);
    if failures < 3 {
      JobCommits(cfg, Goto(c, t, Job(kind, failures + 1)), t, kind, failures + 1, elapsed);
    } else {
      GivenUp(cfg, Goto(c, t, Done), t, Go(elapsed));
    }
  }

  lemma RefundsFireNothing(r: Rows)
    ensures WebhookRefunded(r).Committed? ==> !WebhookRefunded(r).fires
  {
    hide OrderTo;
  }
}
