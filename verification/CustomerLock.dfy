/**
 FincodeCustomerService::ensureCustomerExists for one user and tenant: double-checked
 locking around a gateway call, under a lock with a lease, over a row with a unique
 key. Any number of callers interleave; the lease of the holder may lapse at any time,
 and the gateway may create a customer whose reply is lost, upon which the request is
 sent again without anything by which the gateway could recognise it.
 */
module CustomerLock {
  import opened Common

  // The local row: its id and the gateway's customer id.
  datatype Row = Row(id: nat, gatewayId: nat)

  datatype Outcome = Returned(row: Row) | Threw

  datatype Pc =
    | FastRead
    | Block                       // waiting for the lock
    | LastCheck                   // the wait timed out
    | Recheck
    | CreateAtGateway(attempt: nat)
    | Insert(gatewayId: nat)
    | ReadExisting                // the insert hit the unique key
    | Release(outcome: Outcome)
    | Finished(outcome: Outcome)

  datatype State = State(
    row: Option<Row>,
    lock: Option<nat>,
    threads: map<nat, Pc>,
    nextId: nat,
    answered: set<nat>,           // callers the gateway has answered with a new customer
    orphans: nat,                 // customers created at the gateway behind a lost reply
    lapsed: set<nat>,             // callers whose lease lapsed before their insert was done
    errored: set<nat>)            // callers whose insert failed other than on the unique key

  // `Unreachable`: a 5xx answer or no connection, nothing created; `LosesReply`: the same,
  // but the customer is there.
  datatype Choice = Go | TimesOut | GatewayRefuses | Unreachable | LosesReply | InsertFails

  datatype Label = Start(t: nat) | LeaseLapses | Act(t: nat, choice: Choice)

  // fincode.retry_times
  const MAX_ATTEMPTS: nat := 2

  const INITIAL := State(None, None, map[], 0, {}, 0, {}, {})

  // All customers the gateway has for this user and tenant.
  function Customers(s: State): nat {
    |s.answered| + s.orphans
  }

  predicate IsCritical(pc: Pc) {
    pc.Recheck? || pc.CreateAtGateway? || pc.Insert?
  }

  function Goto(s: State, t: nat, pc: Pc): State {
    s.(threads := s.threads[t := pc])
  }

  function Step(s: State, l: Label): State {
    match l
    case Start(t) => if t in s.threads then s else Goto(s, t, FastRead)
    case LeaseLapses =>
      if s.lock.None? then s
      else
        var t := s.lock.value;
        s.(lock := None,
           lapsed := if t in s.threads && IsCritical(s.threads[t]) then s.lapsed + {t} else s.lapsed)
    case Act(t, ch) => if t in s.threads then ActStep(s, t, ch) else s
  }

  function ActStep(s: State, t: nat, ch: Choice): State
    requires t in s.threads
  {
    match s.threads[t]
    case FastRead => Goto(s, t, if s.row.Some? then Finished(Returned(s.row.value)) else Block)
    case Block =>
      if s.lock.None? then Goto(s.(lock := Some(t)), t, Recheck)
      else if ch.TimesOut? then Goto(s, t, LastCheck)
      else s
    case LastCheck => Goto(s, t, Finished(if s.row.Some? then Returned(s.row.value) else Threw))
    case Recheck => Goto(s, t, if s.row.Some? then Release(Returned(s.row.value)) else CreateAtGateway(1))
    case CreateAtGateway(attempt) =>
      if ch.GatewayRefuses? then Goto(s, t, Release(Threw))
      else if ch.Unreachable? || ch.LosesReply? then
        Goto(if ch.LosesReply? then s.(orphans := s.orphans + 1) else s, t,
             if attempt < MAX_ATTEMPTS then CreateAtGateway(attempt + 1) else Release(Threw))
      else Goto(s.(nextId := s.nextId + 1, answered := s.answered + {t}), t, Insert(s.nextId))
    case Insert(gatewayId) =>
      if ch.InsertFails? then Goto(s.(errored := s.errored + {t}), t, Release(Threw))
      else if s.row.Some? then Goto(s, t, ReadExisting)
      else
        var row := Row(s.nextId, gatewayId);
        Goto(s.(row := Some(row), nextId := s.nextId + 1), t, Release(Returned(row)))
    case ReadExisting => Goto(s, t, Release(if s.row.Some? then Returned(s.row.value) else Threw))
    case Release(outcome) =>
      // Releasing somebody else's lock does nothing.
      Goto(if s.lock == Some(t) then s.(lock := None) else s, t, Finished(outcome))
    case Finished(_) => s
  }

  function Run(labels: seq<Label>): State
    decreases |labels|
  {
    if labels == [] then INITIAL else Step(Run(labels[..|labels| - 1]), labels[|labels| - 1])
  }

  // ----- the invariant -----

  // Answered with a customer, and neither a lapse nor an insert error to blame.
  ghost predicate Clean(s: State, t: nat) {
    t in s.answered && t !in s.lapsed && t !in s.errored
  }

  ghost predicate ThreadOk(s: State, t: nat)
    requires t in s.threads
  {
    var pc := s.threads[t];
    && (IsCritical(pc) && t !in s.lapsed ==> s.lock == Some(t))
    && (pc.CreateAtGateway? && t !in s.lapsed ==> forall u :: !Clean(s, u))
    && (pc.Insert? && t !in s.lapsed ==> forall u :: Clean(s, u) ==> u == t)
    && (pc.ReadExisting? ==> s.row.Some?)
    && ((pc.Release? || pc.Finished?) && pc.outcome.Returned? ==> s.row == Some(pc.outcome.row))
  }

  ghost predicate LockOk(s: State) {
    s.lock.Some? ==>
      && s.lock.value in s.threads
      && var pc := s.threads[s.lock.value]; IsCritical(pc) || pc.ReadExisting? || pc.Release?
  }

  // A caller answered with a customer is past the gateway; a clean one has the row
  // in place or is about to insert it.
  ghost predicate CreatorOk(s: State, t: nat) {
    && t in s.threads
    && var pc := s.threads[t];
       && (pc.Insert? || pc.ReadExisting? || pc.Release? || pc.Finished?)
       && (Clean(s, t) ==> pc.Insert? || s.row.Some?)
  }

  ghost predicate Inv(s: State) {
    && LockOk(s)
    && (forall t :: t in s.threads ==> ThreadOk(s, t))
    && (forall t :: t in s.answered ==> CreatorOk(s, t))
    && (forall t, u :: Clean(s, t) && Clean(s, u) ==> t == u)
  }

  lemma LapseKeepsInv(s: State)
    requires Inv(s)
    ensures Inv(Step(s, LeaseLapses))
  {
    var s' := Step(s, LeaseLapses);
    assert forall t :: Clean(s', t) ==> Clean(s, t);
    forall t | t in s'.threads ensures ThreadOk(s', t) {
      assert ThreadOk(s, t);
    }
    forall t | t in s'.answered ensures CreatorOk(s', t) {
      assert CreatorOk(s, t);
    }
  }

  // Thread `t` moves without being answered with a new customer.
  lemma MoveKeepsInv(s: State, s': State, t: nat)
    requires Inv(s) && t in s'.threads && s'.threads == s.threads[t := s'.threads[t]]
    requires s'.answered == s.answered && s'.lapsed == s.lapsed && s.errored <= s'.errored
    requires s.row.Some? ==> s'.row == s.row
    requires s'.lock == s.lock || (s.lock == None && s'.lock == Some(t)) || (s.lock == Some(t) && s'.lock == None)
    requires LockOk(s') && ThreadOk(s', t)
    requires t in s'.answered ==> CreatorOk(s', t)
    ensures Inv(s')
  {
    assert forall u :: Clean(s', u) ==> Clean(s, u);
    forall u | u in s'.threads ensures ThreadOk(s', u) {
      if u != t { assert ThreadOk(s, u); }
    }
    forall u | u in s'.answered ensures CreatorOk(s', u) {
      if u != t { assert CreatorOk(s, u); }
    }
  }

  lemma CreateKeepsInv(s: State, t: nat)
    requires Inv(s) && t in s.threads && s.threads[t].CreateAtGateway?
    ensures Inv(ActStep(s, t, Go))
  {
    var s' := ActStep(s, t, Go);
    assert ThreadOk(s, t);
    assert forall u :: Clean(s', u) ==> Clean(s, u) || u == t;
    forall u | u in s'.threads ensures ThreadOk(s', u) {
      if u != t { assert ThreadOk(s, u); }
    }
    forall u | u in s'.answered ensures CreatorOk(s', u) {
      if u != t { assert CreatorOk(s, u); }
    }
  }

  // Whether or not the gateway has created a customer nobody heard of.
  lemma FailedRequestKeepsInv(s: State, t: nat, ch: Choice)
    requires Inv(s) && t in s.threads && s.threads[t].CreateAtGateway?
    requires ch.GatewayRefuses? || ch.Unreachable? || ch.LosesReply?
    ensures Inv(ActStep(s, t, ch))
  {
    var s' := ActStep(s, t, ch);
    assert ThreadOk(s, t);
    assert t in s.answered ==> CreatorOk(s, t);
    assert forall u :: Clean(s', u) <==> Clean(s, u);
    MoveKeepsInv(s, s', t);
  }

  // Past the recheck, the holder knows that no clean caller has come before.
  lemma RecheckKeepsInv(s: State, t: nat)
    requires Inv(s) && t in s.threads && s.threads[t].Recheck? && s.row.None?
    ensures Inv(Goto(s, t, CreateAtGateway(1)))
  {
    assert ThreadOk(s, t);
    forall u | Clean(s, u) ensures t in s.lapsed {
      assert CreatorOk(s, u) && ThreadOk(s, u);
    }
    var s' := Goto(s, t, CreateAtGateway(1));
    assert forall u :: Clean(s', u) <==> Clean(s, u);
    assert t in s.answered ==> CreatorOk(s, t);
    MoveKeepsInv(s, s', t);
  }

  lemma ActKeepsInv(s: State, t: nat, ch: Choice)
    requires Inv(s) && t in s.threads
    ensures Inv(ActStep(s, t, ch))
  {
    assert ThreadOk(s, t);
    assert t in s.answered ==> CreatorOk(s, t);
    var s' := ActStep(s, t, ch);
    match s.threads[t]
    case CreateAtGateway(_) =>
      if ch.GatewayRefuses? || ch.Unreachable? || ch.LosesReply? {
        FailedRequestKeepsInv(s, t, ch);
      } else {
        CreateKeepsInv(s, t);
      }
    case Recheck =>
      if s.row.Some? { MoveKeepsInv(s, s', t); } else { RecheckKeepsInv(s, t); }
    case Block =>
      if s' != s { MoveKeepsInv(s, s', t); }
    case Finished(_) =>
    case _ => MoveKeepsInv(s, s', t);
  }

  lemma {:induction false} RunKeepsInv(labels: seq<Label>)
    ensures Inv(Run(labels))
    decreases |labels|
  {
    if labels != [] {
      RunKeepsInv(labels[..|labels| - 1]);
      var s, l := Run(labels[..|labels| - 1]), labels[|labels| - 1];
      match l
      case Start(t) => if t !in s.threads { MoveKeepsInv(s, Goto(s, t, FastRead), t); }
      case LeaseLapses => LapseKeepsInv(s);
      case Act(t, ch) => if t in s.threads { ActKeepsInv(s, t, ch); }
    }
  }

  // ----- the guarantees -----

  // Callers that succeed all return the one row, whatever lapses.
  lemma CallersAgree(labels: seq<Label>, t: nat, u: nat)
    requires var s := Run(labels);
             && t in s.threads && s.threads[t].Finished? && s.threads[t].outcome.Returned?
             && u in s.threads && s.threads[u].Finished? && s.threads[u].outcome.Returned?
    ensures var s := Run(labels);
            s.threads[t].outcome == s.threads[u].outcome && s.row == Some(s.threads[t].outcome.row)
  {
    RunKeepsInv(labels);
    assert ThreadOk(Run(labels), t) && ThreadOk(Run(labels), u);
  }

  // ----- who returns and who throws -----

  // The acts that end a caller without a customer: giving up the wait with no row there, a
  // refusal, the second request without an answer, and an insert that fails otherwise than on
  // the unique key.
  predicate Defeats(s: State, t: nat, ch: Choice) {
    t in s.threads &&
    match s.threads[t]
    case LastCheck => s.row.None?
    case CreateAtGateway(attempt) =>
      ch.GatewayRefuses? || ((ch.Unreachable? || ch.LosesReply?) && attempt == 2)
    case Insert(_) => ch.InsertFails?
    case _ => false
  }

  predicate DefeatsBy(s: State, t: nat, l: Label) {
    l.Act? && l.t == t && Defeats(s, t, l.choice)
  }

  ghost predicate WasDefeated(labels: seq<Label>, t: nat) {
    exists i :: 0 <= i < |labels| && DefeatsBy(Run(labels[..i]), t, labels[i])
  }

  predicate HasThrown(s: State, t: nat) {
    t in s.threads && (s.threads[t].Release? || s.threads[t].Finished?) && s.threads[t].outcome.Threw?
  }

  lemma WasDefeatedSnoc(front: seq<Label>, l: Label, t: nat)
    ensures WasDefeated(front + [l], t) <==> WasDefeated(front, t) || DefeatsBy(Run(front), t, l)
  {
    var labels := front + [l];
    hide Run, DefeatsBy;
    assert labels[..|front|] == front && labels[|front|] == l;
    assert forall i | 0 <= i < |front| :: labels[..i] == front[..i] && labels[i] == front[i];
    if WasDefeated(front, t) {
      var i :| 0 <= i < |front| && DefeatsBy(Run(front[..i]), t, front[i]);
      assert DefeatsBy(Run(labels[..i]), t, labels[i]);
    }
  }

  // The requests of `t` that got no answer so far.
  function Unanswered(labels: seq<Label>, t: nat): nat {
    if labels == [] then 0
    else
      var front, l := labels[..|labels| - 1], labels[|labels| - 1];
      Unanswered(front, t) + (if IsUnanswered(Run(front), t, l) then 1 else 0)
  }

  predicate IsUnanswered(s: State, t: nat, l: Label) {
    && l.Act? && l.t == t && (l.choice.Unreachable? || l.choice.LosesReply?)
    && t in s.threads && s.threads[t].CreateAtGateway?
  }

  // Where a caller with `n` unanswered requests can be.
  predicate HasAsked(s: State, t: nat, n: nat) {
    && n <= 2
    && (t in s.threads ==>
          match s.threads[t]
          case CreateAtGateway(attempt) => attempt == n + 1 <= 2
          case Insert(_) => n <= 1
          case ReadExisting => n <= 1
          case Release(outcome) => n == 2 ==> outcome.Threw?
          case Finished(outcome) => n == 2 ==> outcome.Threw?
          case _ => n == 0)
    && (t !in s.threads ==> n == 0)
  }

  lemma StepAsks(s: State, l: Label, t: nat, n: nat)
    requires HasAsked(s, t, n)
    ensures HasAsked(Step(s, l), t, if IsUnanswered(s, t, l) then n + 1 else n)
  {
  }

  // A caller asks the gateway twice at most: a first unanswered request is repeated, and
  // after a second one it throws.
  lemma {:induction false} AsksTwiceAtMost(labels: seq<Label>, t: nat)
    ensures HasAsked(Run(labels), t, Unanswered(labels, t))
    decreases |labels|
  {
    if labels != [] {
      AsksTwiceAtMost(labels[..|labels| - 1], t);
      StepAsks(Run(labels[..|labels| - 1]), labels[|labels| - 1], t, Unanswered(labels[..|labels| - 1], t));
      hide Step, HasAsked;
    }
  }

  lemma StepThrows(s: State, l: Label, t: nat, n: nat)
    requires Inv(s) && HasAsked(s, t, n)
    ensures HasThrown(Step(s, l), t) <==> HasThrown(s, t) || DefeatsBy(s, t, l)
  {
    if t in s.threads { assert ThreadOk(s, t); }
  }

  // A caller throws exactly if one of its own acts was such a defeat.
  lemma {:induction false} ThrewIffDefeated(labels: seq<Label>, t: nat)
    ensures HasThrown(Run(labels), t) <==> WasDefeated(labels, t)
    decreases |labels|
  {
    if labels != [] {
      var front, l := labels[..|labels| - 1], labels[|labels| - 1];
      assert labels == front + [l];
      ThrewIffDefeated(front, t);
      RunKeepsInv(front);
      AsksTwiceAtMost(front, t);
      StepThrows(Run(front), l, t, Unanswered(front, t));
      WasDefeatedSnoc(front, l, t);
      hide Inv, Step, HasThrown, HasAsked, DefeatsBy, WasDefeated;
    }
  }

  // A caller whose own acts meet no fault never throws, nor stops waiting; whatever befalls
  // the others.
  lemma {:induction false} NoFaultNoThrow(labels: seq<Label>, t: nat)
    requires forall l :: l in labels && l.Act? && l.t == t ==> l.choice == Go
    ensures !HasThrown(Run(labels), t) && !StopsWaiting(Run(labels), t)
    decreases |labels|
  {
    if labels != [] {
      var front, l := labels[..|labels| - 1], labels[|labels| - 1];
      NoFaultNoThrow(front, t);
      RunKeepsInv(front);
      AsksTwiceAtMost(front, t);
      StepThrows(Run(front), l, t, Unanswered(front, t));
      assert l in labels;
      FaultlessStep(Run(front), l, t);
      hide Inv, Step, HasThrown, HasAsked, DefeatsBy;
    }
  }

  predicate StopsWaiting(s: State, t: nat) {
    t in s.threads && s.threads[t].LastCheck?
  }

  lemma FaultlessStep(s: State, l: Label, t: nat)
    requires l.Act? && l.t == t ==> l.choice == Go
    requires !StopsWaiting(s, t)
    ensures !StopsWaiting(Step(s, l), t) && !DefeatsBy(s, t, l)
  {
  }

  lemma Snoc(labels: seq<Label>, l: Label)
    ensures Run(labels + [l]) == Step(Run(labels), l)
  {
    assert (labels + [l])[..|labels|] == labels;
  }

  // Once the row is there, a caller that starts now, or has not looked yet, returns it with
  // its first act, lock or no lock.
  lemma ExistingRowIsReturned(labels: seq<Label>, t: nat, ch: Choice)
    requires var s := Run(labels); s.row.Some? && (t in s.threads ==> s.threads[t].FastRead?)
    ensures var s := Run(labels + [Start(t)] + [Act(t, ch)]);
            t in s.threads && s.threads[t] == Finished(Returned(Run(labels).row.value)) && s.row == Run(labels).row
  {
    Snoc(labels, Start(t));
    Snoc(labels + [Start(t)], Act(t, ch));
    hide Run;
  }

  // A caller that meets a free lock and no fault is done in six acts, with the row that is
  // there or with the one it makes.
  lemma AloneReturns(labels: seq<Label>, t: nat) returns (more: seq<Label>)
    requires t !in Run(labels).threads && Run(labels).lock.None?
    ensures |more| == 7 && more[0] == Start(t) && forall i :: 0 < i < 7 ==> more[i] == Act(t, Go)
    ensures var s := Run(labels + more);
            t in s.threads && s.threads[t].Finished? && s.row.Some? && s.threads[t].outcome == Returned(s.row.value)
    ensures Run(labels).row.Some? ==> Run(labels + more).row == Run(labels).row
  {
    var s0 := Run(labels);
    var go := Act(t, Go);
    more := [Start(t), go, go, go, go, go, go];
    var s := s0;
    var run := labels;
    Snoc(run, Start(t));
    run, s := run + [Start(t)], Step(s, Start(t));
    hide Run;
    for i := 1 to 7
      invariant run == labels + more[..i] && Run(run) == s && t in s.threads
      invariant i == 1 ==> s.threads[t].FastRead? && s.row == s0.row
      invariant s0.row.Some? && i > 1 ==> s.threads[t] == Finished(Returned(s0.row.value)) && s.row == s0.row
      invariant s0.row.None? ==> OnItsWay(s, t, i)
    {
      Snoc(run, go);
      run, s := run + [go], Step(s, go);
      assert more[..i + 1] == more[..i] + [go];
    }
    assert more[..7] == more;
  }

  ghost predicate OnItsWay(s: State, t: nat, i: nat)
    requires t in s.threads
  {
    var pc := s.threads[t];
    match i
    case 1 => pc.FastRead? && s.row.None? && s.lock.None?
    case 2 => pc.Block? && s.row.None? && s.lock.None?
    case 3 => pc.Recheck? && s.row.None?
    case 4 => pc.CreateAtGateway? && s.row.None?
    case 5 => pc.Insert? && s.row.None?
    case 6 => pc.Release? && s.row.Some? && pc.outcome == Returned(s.row.value)
    case _ => pc.Finished? && s.row.Some? && pc.outcome == Returned(s.row.value)
  }

  // ----- what is stored -----

  // Some act of `u` was answered by the gateway with the customer `g`.
  ghost predicate WasGiven(labels: seq<Label>, u: nat, g: nat) {
    exists i :: 0 <= i < |labels| && GivenBy(Run(labels[..i]), u, labels[i], g)
  }

  predicate GivenBy(s: State, u: nat, l: Label, g: nat) {
    && u in s.threads && s.threads[u].CreateAtGateway?
    && l.Act? && l.t == u && u in Step(s, l).threads && Step(s, l).threads[u] == Insert(g)
  }

  lemma WasGivenSnoc(front: seq<Label>, l: Label, u: nat, g: nat)
    ensures WasGiven(front + [l], u, g) <==> WasGiven(front, u, g) || GivenBy(Run(front), u, l, g)
  {
    var labels := front + [l];
    hide Run, GivenBy;
    assert labels[..|front|] == front && labels[|front|] == l;
    assert forall i | 0 <= i < |front| :: labels[..i] == front[..i] && labels[i] == front[i];
    if WasGiven(front, u, g) {
      var i :| 0 <= i < |front| && GivenBy(Run(front[..i]), u, front[i], g);
      assert GivenBy(Run(labels[..i]), u, labels[i], g);
    }
  }

  // The stored row holds a customer the gateway has created, and every caller is about to
  // store the one it was given itself.
  lemma {:induction false} RowHoldsGivenCustomer(labels: seq<Label>)
    ensures var s := Run(labels); s.row.Some? ==> exists u :: WasGiven(labels, u, s.row.value.gatewayId)
    ensures var s := Run(labels); forall t :: t in s.threads && s.threads[t].Insert? ==> WasGiven(labels, t, s.threads[t].gatewayId)
    decreases |labels|
  {
    if labels != [] {
      var front, l := labels[..|labels| - 1], labels[|labels| - 1];
      assert labels == front + [l];
      RowHoldsGivenCustomer(front);
      var s, s' := Run(front), Run(labels);
      forall t | t in s'.threads && s'.threads[t].Insert? ensures WasGiven(labels, t, s'.threads[t].gatewayId) {
        StepGives(s, l, t);
        WasGivenSnoc(front, l, t, s'.threads[t].gatewayId);
      }
      if s'.row.Some? {
        var g := s'.row.value.gatewayId;
        StepStores(s, l);
        var u :| WasGiven(front, u, g);
        WasGivenSnoc(front, l, u, g);
      }
      hide Step, WasGiven, GivenBy;
    }
  }

  lemma StepGives(s: State, l: Label, t: nat)
    requires t in Step(s, l).threads && Step(s, l).threads[t].Insert?
    ensures (t in s.threads && s.threads[t] == Step(s, l).threads[t]) || GivenBy(s, t, l, Step(s, l).threads[t].gatewayId)
  {
  }

  lemma StepStores(s: State, l: Label)
    ensures Step(s, l).row == s.row ||
            (l.Act? && l.t in s.threads && s.threads[l.t].Insert? && Step(s, l).row.Some? &&
             Step(s, l).row.value.gatewayId == s.threads[l.t].gatewayId)
  {
  }

  // ----- how many are created -----

  lemma CardinalityOfSubset(a: set<nat>, b: set<nat>)
    requires a <= b
    ensures |a| <= |b|
  {
    assert b == a + (b - a) && a !! (b - a);
  }

  lemma AtMostOneClean(s: State)
    requires Inv(s)
    ensures forall t, u :: Clean(s, t) && Clean(s, u) ==> t == u
  {
  }

  // The gateway creates one customer, plus at most one for every lease that lapses
  // inside the critical section, every insert that fails for another reason, and every
  // reply that is lost.
  lemma CreationsAreBounded(labels: seq<Label>)
    ensures var s := Run(labels); Customers(s) <= 1 + |s.lapsed| + |s.errored| + s.orphans
  {
    RunKeepsInv(labels);
    var s := Run(labels);
    AtMostOneClean(s);
    hide Inv, Run;
    var excused, clean := s.answered * (s.lapsed + s.errored), s.answered - s.lapsed - s.errored;
    assert s.answered == excused + clean && excused !! clean;
    CardinalityOfSubset(excused, s.lapsed + s.errored);
    assert |s.lapsed + s.errored| <= |s.lapsed| + |s.errored|;
    if t :| t in clean {
      assert Clean(s, t);
      assert forall u :: u in clean ==> Clean(s, u);
      assert clean == {t};
    }
  }

  // What may go wrong.
  datatype Faults = Faults(leasesLapse: bool, insertsFail: bool, repliesGetLost: bool)

  predicate Permits(f: Faults, l: Label) {
    && (l.LeaseLapses? ==> f.leasesLapse)
    && (l.Act? && l.choice.InsertFails? ==> f.insertsFail)
    && (l.Act? && l.choice.LosesReply? ==> f.repliesGetLost)
  }

  ghost predicate Permitted(f: Faults, labels: seq<Label>) {
    forall l :: l in labels ==> Permits(f, l)
  }

  lemma {:induction false} FaultsNeedPermission(f: Faults, labels: seq<Label>)
    requires Permitted(f, labels)
    ensures var s := Run(labels);
            && (!f.leasesLapse ==> s.lapsed == {})
            && (!f.insertsFail ==> s.errored == {})
            && (!f.repliesGetLost ==> s.orphans == 0)
    decreases |labels|
  {
    if labels != [] {
      FaultsNeedPermission(f, labels[..|labels| - 1]);
      assert Permits(f, labels[|labels| - 1]);
      StepFaults(Run(labels[..|labels| - 1]), labels[|labels| - 1]);
      hide Step;
    }
  }

  lemma StepFaults(s: State, l: Label)
    ensures Step(s, l).lapsed == s.lapsed || l.LeaseLapses?
    ensures Step(s, l).errored == s.errored || (l.Act? && l.choice.InsertFails?)
    ensures Step(s, l).orphans == s.orphans || (l.Act? && l.choice.LosesReply?)
  {
  }

  // At most one customer on all runs exactly when no lease lapses, no insert fails and no
  // reply gets lost.
  lemma OneCustomerIff(f: Faults)
    ensures (forall labels | Permitted(f, labels) :: Customers(Run(labels)) <= 1) <==>
            !f.leasesLapse && !f.insertsFail && !f.repliesGetLost
  {
    if f.leasesLapse {
      var labels := LapseCreatesTwice(f);
      assert Customers(Run(labels)) > 1;
    } else if f.insertsFail {
      var labels := InsertErrorCreatesTwice(f);
      assert Customers(Run(labels)) > 1;
    } else if f.repliesGetLost {
      var labels := LostReplyCreatesTwice(f);
      assert Customers(Run(labels)) > 1;
    } else {
      forall labels | Permitted(f, labels) ensures Customers(Run(labels)) <= 1 {
        FaultsNeedPermission(f, labels);
        CreationsAreBounded(labels);
      }
    }
  }

  // Once the row is there it stays, and the only customers the gateway can still create
  // are those of callers that were already about to ask.
  lemma {:induction false} RowStopsCreation(labels: seq<Label>, more: seq<Label>)
    requires Run(labels).row.Some?
    ensures Run(labels + more).row == Run(labels).row
    ensures forall t :: t in Run(labels + more).answered ==> t in Run(labels).answered || AboutToCreate(Run(labels), t)
    ensures (forall t :: !AboutToCreate(Run(labels), t)) ==> Run(labels + more).orphans == Run(labels).orphans
    ensures forall t :: AboutToCreate(Run(labels + more), t) ==> AboutToCreate(Run(labels), t)
    decreases |more|
  {
    if more == [] {
      assert labels + more == labels;
    } else {
      var rest := more[..|more| - 1];
      assert (labels + more)[..|labels + more| - 1] == labels + rest;
      RowStopsCreation(labels, rest);
      RowStopsStep(Run(labels + rest), more[|more| - 1]);
      hide Step, AboutToCreate;
    }
  }

  lemma RowStopsStep(s: State, l: Label)
    requires s.row.Some?
    ensures Step(s, l).row == s.row
    ensures forall t :: t in Step(s, l).answered ==> t in s.answered || AboutToCreate(s, t)
    ensures (forall t :: !AboutToCreate(s, t)) ==> Step(s, l).orphans == s.orphans
    ensures forall t :: AboutToCreate(Step(s, l), t) ==> AboutToCreate(s, t)
  {
    if l.Act? && !AboutToCreate(s, l.t) {
      assert Step(s, l).orphans == s.orphans;
    }
  }

  ghost predicate AboutToCreate(s: State, t: nat) {
    t in s.threads && s.threads[t].CreateAtGateway?
  }

  lemma Then(f: Faults, labels: seq<Label>, s: State, l: Label) returns (labels': seq<Label>, s': State)
    requires Run(labels) == s && Permitted(f, labels) && Permits(f, l)
    ensures labels' == labels + [l] && s' == Step(s, l) && Run(labels') == s' && Permitted(f, labels')
  {
    labels', s' := labels + [l], Step(s, l);
    assert labels'[..|labels|] == labels;
  }

  // Up to holding the lock with the recheck passed.
  lemma EntersCritical(f: Faults, labels0: seq<Label>, s0: State, t: nat) returns (labels: seq<Label>, s: State)
    requires Run(labels0) == s0 && Permitted(f, labels0) && t !in s0.threads && s0.row == None && s0.lock == None
    ensures Run(labels) == s && Permitted(f, labels) && s == Goto(s0, t, CreateAtGateway(1)).(lock := Some(t))
  {
    hide Run, Permitted;
    labels, s := Then(f, labels0, s0, Start(t));
    labels, s := Then(f, labels, s, Act(t, Go));
    labels, s := Then(f, labels, s, Act(t, Go));
    labels, s := Then(f, labels, s, Act(t, Go));
  }

  // One lapse, two customers at the gateway: the bound is reached.
  lemma LapseCreatesTwice(f: Faults) returns (labels: seq<Label>)
    requires f.leasesLapse
    ensures Permitted(f, labels)
    ensures var s := Run(labels); Customers(s) == 2 && |s.lapsed| == 1 && s.errored == {} && s.orphans == 0
  {
    var s := INITIAL;
    labels := [];
    assert Run(labels) == s && Permitted(f, labels);
    hide Run, Permitted;
    labels, s := EntersCritical(f, labels, s, 0);
    labels, s := Then(f, labels, s, LeaseLapses);
    labels, s := EntersCritical(f, labels, s, 1);
    labels, s := Then(f, labels, s, Act(0, Go));
    labels, s := Then(f, labels, s, Act(1, Go));
    assert s.answered == {0, 1} && s.lapsed == {0};
  }

  // One failed insert does the same, with every lease kept.
  lemma InsertErrorCreatesTwice(f: Faults) returns (labels: seq<Label>)
    requires f.insertsFail
    ensures Permitted(f, labels)
    ensures var s := Run(labels); Customers(s) == 2 && s.lapsed == {} && |s.errored| == 1 && s.orphans == 0
  {
    var s := INITIAL;
    labels := [];
    assert Run(labels) == s && Permitted(f, labels);
    hide Run, Permitted;
    labels, s := EntersCritical(f, labels, s, 0);
    labels, s := Then(f, labels, s, Act(0, Go));
    labels, s := Then(f, labels, s, Act(0, InsertFails));
    labels, s := Then(f, labels, s, Act(0, Go));
    labels, s := EntersCritical(f, labels, s, 1);
    labels, s := Then(f, labels, s, Act(1, Go));
    assert s.answered == {0, 1} && s.errored == {0};
  }

  // So does one lost reply: the request is sent again and answered.
  lemma LostReplyCreatesTwice(f: Faults) returns (labels: seq<Label>)
    requires f.repliesGetLost
    ensures Permitted(f, labels)
    ensures var s := Run(labels); Customers(s) == 2 && s.lapsed == {} && s.errored == {} && s.orphans == 1
  {
    var s := INITIAL;
    labels := [];
    assert Run(labels) == s && Permitted(f, labels);
    hide Run, Permitted;
    labels, s := EntersCritical(f, labels, s, 0);
    labels, s := Then(f, labels, s, Act(0, LosesReply));
    labels, s := Then(f, labels, s, Act(0, Go));
    assert s.answered == {0};
  }
}
