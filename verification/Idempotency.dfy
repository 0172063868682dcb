/**
 The idempotency-key middleware: the record operations in their own form, and any
 number of concurrent requests under one (user, key, route) triple as a state machine.
 Other triples touch other rows. Each database transaction is one step; reading the
 clock, running the handler and storing its response are steps of their own.
 */
module Idempotency {
  import opened Common

  // TTL_MINUTES, in seconds.
  const TTL: nat := 30 * 60

  datatype Response = Response(status: nat, content: Option<string>)

  datatype Stored = Stored(status: nat, body: string)

  datatype Rec = Rec(id: nat, hash: string, expiresAt: nat, response: Option<Stored>)

  datatype Reply =
    | MissingKey                     // 422
    | BadKey                         // 400
    | Conflict                       // 409: the key was used with a different request
    | InProgress                     // 409: the first request is still running
    | Replay(response: Stored)
    | Own(returned: Response)        // the handler's response
    | Thrown

  function StoredForm(r: Response): Stored {
    Stored(r.status, r.content.GetOr(""))
  }

  // What a request gets for a record it did not create.
  function Decide(rec: Rec, hash: string): Reply {
    if rec.hash != hash then Conflict
    else if rec.response.Some? then Replay(rec.response.value)
    else InProgress
  }

  // The transaction of getOrCreateRecord on the triple's row: drop it if expired, then
  // take what is there or create. The flag says whether the record is new.
  function GetOrCreateTx(row: Option<Rec>, hash: string, now: nat, id: nat): (Rec, bool) {
    if row.Some? && row.value.expiresAt >= now then (row.value, false)
    else (Rec(id, hash, now + TTL, None), true)
  }

  // Deleting or saving through a model object touches the row with its id only.
  function DeleteRow(row: Option<Rec>, id: nat): Option<Rec> {
    if row.Some? && row.value.id == id then None else row
  }

  function StoreResponse(row: Option<Rec>, id: nat, response: Stored): Option<Rec> {
    if row.Some? && row.value.id == id then Some(row.value.(response := Some(response))) else row
  }

  // ----- the middleware in its own form -----

  type Triple = (nat, string, string)

  datatype HandlerResult = Returns(response: Response) | Throws

  class EnsureIdempotencyKey {
    var rows: map<Triple, Rec>
    var nextId: nat

    function Row(t: Triple): Option<Rec>
      reads this
    {
      if t in rows then Some(rows[t]) else None
    }

    method SetRow(t: Triple, row: Option<Rec>)
      modifies this`rows
      ensures Row(t) == row && rows - {t} == old(rows) - {t}
    {
      rows := if row.Some? then rows[t := row.value] else rows - {t};
    }

    // None when the transaction failed and the row is not there either.
    method GetOrCreateRecord(t: Triple, hash: string, now: nat, txFails: bool)
      returns (rec: Option<Rec>, wasRecentlyCreated: bool)
      modifies this
      ensures txFails ==> rec == Row(t) && !wasRecentlyCreated && Row(t) == old(Row(t)) && nextId == old(nextId)
      ensures !txFails ==>
                && rec.Some? && (rec.value, wasRecentlyCreated) == GetOrCreateTx(old(Row(t)), hash, now, old(nextId))
                && Row(t) == rec
                && nextId == old(nextId) + (if wasRecentlyCreated then 1 else 0)
      ensures rows - {t} == old(rows) - {t}
    {
      if txFails {
        return Row(t), false;
      }
      if t in rows && rows[t].expiresAt < now {
        SetRow(t, None);
      }
      if t in rows {
        return Row(t), false;
      }
      rec := Some(Rec(nextId, hash, now + TTL, None));
      wasRecentlyCreated := true;
      nextId := nextId + 1;
      SetRow(t, rec);
    }

    method PersistResponse(t: Triple, rec: Rec, response: Response)
      modifies this`rows
      ensures Row(t) == if response.status >= 500 then DeleteRow(old(Row(t)), rec.id)
                        else StoreResponse(old(Row(t)), rec.id, StoredForm(response))
      ensures rows - {t} == old(rows) - {t}
    {
      if response.status >= 500 {
        SetRow(t, DeleteRow(Row(t), rec.id));
        return;
      }
      var content := if response.content.Some? then response.content.value else "";
      SetRow(t, StoreResponse(Row(t), rec.id, Stored(response.status, content)));
    }

    // One request from start to end with no other request in between. `header` is the
    // trimmed header.
    method Handle(header: Option<string>, isUuid: bool, user: nat, route: string, hash: string,
                  now: nat, txFails: bool, handler: HandlerResult) returns (reply: Reply)
      modifies this
      ensures header.None? ==> reply == MissingKey && rows == old(rows)
      ensures header.Some? && !(header.value != "" && isUuid) ==> reply == BadKey && rows == old(rows)
      ensures header.Some? && header.value != "" && isUuid ==>
                var t := (user, header.value, route);
                var before := old(Row(t));
                && rows - {t} == old(rows) - {t}
                && (txFails ==> Row(t) == before && (before.None? ==> reply == Thrown))
                && (before.Some? && (txFails || before.value.expiresAt >= now) ==>
                     && (before.value.hash != hash ==> reply == Conflict)
                     && (before.value.hash == hash && before.value.response.None? ==> reply == InProgress)
                     && (before.value.hash == hash && before.value.response.Some? ==>
                           reply == Replay(before.value.response.value)))
                && (!txFails ==>
                     if before.Some? && before.value.expiresAt >= now then Row(t) == before
                     else match handler
                       case Throws => reply == Thrown && Row(t) == None
                       case Returns(r) =>
                         && reply == Own(r)
                         && Row(t) == if r.status >= 500 then None
                                      else Some(Rec(old(nextId), hash, now + 1800, Some(Stored(r.status, r.content.GetOr(""))))))
    {
      if header.None? {
        return MissingKey;
      }
      if header.value == "" || !isUuid {
        return BadKey;
      }
      var t := (user, header.value, route);
      var rec, created := GetOrCreateRecord(t, hash, now, txFails);
      if rec.None? {
        return Thrown;
      }
      if !created {
        return Decide(rec.value, hash);
      }
      match handler {
        case Throws =>
          SetRow(t, DeleteRow(Row(t), rec.value.id));
          reply := Thrown;
        case Returns(r) =>
          PersistResponse(t, rec.value, r);
          reply := Own(r);
      }
    }
  }

  // ----- concurrent requests under one triple -----

  datatype Pc =
    | Arrived(hash: string)
    | Clocked(hash: string, now: nat)
    | TxFailed(hash: string)
    | Holds(hash: string, rec: Rec)
    | Executing(id: nat)
    | Persisting(id: nat, response: Response)
    | Releasing(id: nat)
    | Finished(reply: Reply)

  // An execution of the handler, under the row it created. `createdAt` is the clock
  // when the row was created, `now` the clock reading its expiry counts from.
  datatype Execution = Execution(
    thread: nat, hash: string, now: nat, createdAt: nat,
    result: Option<Response>, stored: bool, released: bool)

  datatype State = State(
    row: Option<Rec>, nextId: nat, clock: nat,
    threads: map<nat, Pc>, executions: map<nat, Execution>)

  datatype Choice = Go | DbFails | HandlerReturns(response: Response) | HandlerThrows

  datatype Label = Tick(seconds: nat) | Arrive(t: nat, hash: string) | Act(t: nat, choice: Choice)

  const INITIAL := State(None, 0, 0, map[], map[])

  function Goto(s: State, t: nat, pc: Pc): State {
    s.(threads := s.threads[t := pc])
  }

  function Step(s: State, l: Label): State {
    match l
    case Tick(seconds) => s.(clock := s.clock + seconds)
    case Arrive(t, hash) => if t in s.threads then s else Goto(s, t, Arrived(hash))
    case Act(t, ch) => if t in s.threads then ActStep(s, t, ch) else s
  }

  function ActStep(s: State, t: nat, ch: Choice): State
    requires t in s.threads
  {
    match s.threads[t]
    case Arrived(hash) => Goto(s, t, Clocked(hash, s.clock))
    case Clocked(hash, now) =>
      if ch.DbFails? then Goto(s, t, TxFailed(hash))
      else
        var (rec, created) := GetOrCreateTx(s.row, hash, now, s.nextId);
        if !created then Goto(s, t, Holds(hash, rec))
        else
          Goto(s.(row := Some(rec), nextId := s.nextId + 1,
                  executions := s.executions[s.nextId := Execution(t, hash, now, s.clock, None, false, false)]),
               t, Executing(s.nextId))
    case TxFailed(hash) => Goto(s, t, if s.row.Some? then Holds(hash, s.row.value) else Finished(Thrown))
    case Holds(hash, rec) => Goto(s, t, Finished(Decide(rec, hash)))
    case Executing(id) =>
      (match ch
       case HandlerReturns(r) => Goto(Update(s, id, Returned(s, id, r)), t, Persisting(id, r))
       case HandlerThrows => Goto(s, t, Releasing(id))
       case _ => s)
    case Persisting(id, r) =>
      if ch.DbFails? then Goto(s, t, Finished(Thrown))
      else if r.status >= 500 then
        Goto(Release(s, id), t, Finished(Own(r)))
      else
        var s' := s.(row := StoreResponse(s.row, id, StoredForm(r)));
        Goto(Update(s', id, MarkStored(s, id)), t, Finished(Own(r)))
    case Releasing(id) =>
      if ch.DbFails? then Goto(s, t, Finished(Thrown)) else Goto(Release(s, id), t, Finished(Thrown))
    case Finished(_) => s
  }

  function Returned(s: State, id: nat, r: Response): Option<Execution> {
    if id in s.executions then Some(s.executions[id].(result := Some(r))) else None
  }

  function MarkStored(s: State, id: nat): Option<Execution> {
    if id in s.executions then Some(s.executions[id].(stored := true)) else None
  }

  function Update(s: State, id: nat, e: Option<Execution>): State {
    if e.Some? then s.(executions := s.executions[id := e.value]) else s
  }

  function Release(s: State, id: nat): State {
    Update(s.(row := DeleteRow(s.row, id)), id,
           if id in s.executions then Some(s.executions[id].(released := true)) else None)
  }

  function Run(labels: seq<Label>): State
    decreases |labels|
  {
    if labels == [] then INITIAL else Step(Run(labels[..|labels| - 1]), labels[|labels| - 1])
  }

  // ----- the invariant -----

  ghost predicate ThreadOk(s: State, t: nat)
    requires t in s.threads
  {
    match s.threads[t]
    case Clocked(_, now) => now <= s.clock
    case Executing(id) => Runs(s, t, id) && s.executions[id].result == None
    case Persisting(id, r) => Runs(s, t, id) && s.executions[id].result == Some(r)
    case Releasing(id) => Runs(s, t, id) && s.executions[id].result == None
    case _ => true
  }

  // Thread `t` still owns execution `id`.
  ghost predicate Runs(s: State, t: nat, id: nat) {
    id in s.executions && var e := s.executions[id]; e.thread == t && !e.stored && !e.released
  }

  ghost predicate RowIs(s: State, id: nat) {
    s.row.Some? && s.row.value.id == id
  }

  ghost predicate ExecutionOk(s: State, id: nat)
    requires id in s.executions
  {
    var e := s.executions[id];
    && id < s.nextId && e.now <= e.createdAt <= s.clock
    && (e.stored ==> e.result.Some? && e.result.value.status < 500 && !e.released)
    && (e.released ==> e.result.None? || e.result.value.status >= 500)
    // Not released, the row stays until a request after its expiry removes it.
    && (!e.released ==> RowIs(s, id) || s.clock > e.now + TTL)
    && (RowIs(s, id) ==>
          s.row.value == Rec(id, e.hash, e.now + TTL, if e.stored then Some(StoredForm(e.result.value)) else None))
  }

  ghost predicate Spaced(s: State) {
    forall d, e :: d in s.executions && e in s.executions && d < e && !s.executions[d].released ==>
      s.executions[e].createdAt > s.executions[d].now + TTL
  }

  ghost predicate Inv(s: State) {
    && (s.row.Some? ==> s.row.value.id in s.executions)
    && (forall t :: t in s.threads ==> ThreadOk(s, t))
    && (forall id :: id in s.executions ==> ExecutionOk(s, id))
    && Spaced(s)
  }

  lemma StepKeepsInv(s: State, l: Label)
    requires Inv(s)
    ensures Inv(Step(s, l))
  {
    if l.Act? && l.t in s.threads {
      ActKeepsInv(s, l.t, l.choice);
    } else {
      var s' := Step(s, l);
      assert forall id :: id in s'.executions ==> ExecutionOk(s, id);
      forall t | t in s'.threads ensures ThreadOk(s', t) {
        if t in s.threads { assert ThreadOk(s, t); }
      }
    }
  }

  // A step that changes one thread's place only.
  lemma GotoKeepsInv(s: State, t: nat, pc: Pc)
    requires Inv(s) && t in s.threads
    requires ThreadOk(Goto(s, t, pc), t)
    ensures Inv(Goto(s, t, pc))
  {
    var s' := Goto(s, t, pc);
    assert forall id :: id in s'.executions ==> ExecutionOk(s, id);
    forall u | u in s'.threads ensures ThreadOk(s', u) {
      if u != t { assert ThreadOk(s, u); }
    }
  }

  lemma CreateKeepsInv(s: State, t: nat, hash: string, now: nat)
    requires Inv(s) && t in s.threads && s.threads[t] == Clocked(hash, now)
    requires GetOrCreateTx(s.row, hash, now, s.nextId).1
    ensures Inv(ActStep(s, t, Go))
  {
    var s' := ActStep(s, t, Go);
    var e := s.nextId;
    assert ThreadOk(s, t);
    forall d | d in s.executions ensures ExecutionOk(s', d) && d != e {
      assert ExecutionOk(s, d);
    }
    // Whoever has not released must have expired: the transaction found no live row.
    forall d | d in s.executions && !s.executions[d].released ensures s.clock > s.executions[d].now + TTL {
      assert ExecutionOk(s, d);
    }
    forall u | u in s'.threads ensures ThreadOk(s', u) {
      if u != t { assert ThreadOk(s, u); }
    }
  }

  // Thread `t` changes the execution it owns, and the row if it is that one's.
  lemma OwnKeepsInv(s: State, s': State, t: nat, id: nat)
    requires Inv(s) && t in s.threads && Runs(s, t, id)
    requires s.threads[t].Executing? || s.threads[t].Persisting? || s.threads[t].Releasing?
    requires t in s'.threads && s'.threads == s.threads[t := s'.threads[t]]
    requires id in s'.executions && s'.executions == s.executions[id := s'.executions[id]]
    requires s'.nextId == s.nextId && s'.clock == s.clock
    requires s'.executions[id].now == s.executions[id].now && s'.executions[id].createdAt == s.executions[id].createdAt
    requires s'.row == s.row || (RowIs(s, id) && (s'.row == None || RowIs(s', id)))
    requires ExecutionOk(s', id) && ThreadOk(s', t)
    ensures Inv(s')
  {
    forall d | d in s'.executions ensures ExecutionOk(s', d) {
      if d != id { assert ExecutionOk(s, d); }
    }
    forall u | u in s'.threads ensures ThreadOk(s', u) {
      if u != t { assert ThreadOk(s, u); }
    }
    forall d, e | d in s'.executions && e in s'.executions && d < e && !s'.executions[d].released
      ensures s'.executions[e].createdAt > s'.executions[d].now + TTL
    {
      assert d in s.executions && e in s.executions;
      assert !s.executions[d].released;
    }
  }

  lemma ThreadsOwn(s: State, t: nat)
    requires Inv(s) && t in s.threads
    ensures ThreadOk(s, t)
  {
  }

  lemma ActKeepsInv(s: State, t: nat, ch: Choice)
    requires Inv(s) && t in s.threads
    ensures Inv(ActStep(s, t, ch))
  {
    ThreadsOwn(s, t);
    hide Inv;
    match s.threads[t]
    case Arrived(hash) => GotoKeepsInv(s, t, Clocked(hash, s.clock));
    case Clocked(hash, now) =>
      var (rec, created) := GetOrCreateTx(s.row, hash, now, s.nextId);
      if ch.DbFails? {
        GotoKeepsInv(s, t, TxFailed(hash));
      } else if created {
        CreateKeepsInv(s, t, hash, now);
      } else {
        GotoKeepsInv(s, t, Holds(hash, rec));
      }
    case TxFailed(hash) => GotoKeepsInv(s, t, if s.row.Some? then Holds(hash, s.row.value) else Finished(Thrown));
    case Holds(hash, rec) => GotoKeepsInv(s, t, Finished(Decide(rec, hash)));
    case Executing(_) => OwnerKeepsInv(s, t, ch);
    case Persisting(_, _) => OwnerKeepsInv(s, t, ch);
    case Releasing(_) => OwnerKeepsInv(s, t, ch);
    case Finished(_) =>
  }

  lemma OwnerKeepsInv(s: State, t: nat, ch: Choice)
    requires Inv(s) && t in s.threads
    requires s.threads[t].Executing? || s.threads[t].Persisting? || s.threads[t].Releasing?
    ensures Inv(ActStep(s, t, ch))
  {
    assert ThreadOk(s, t);
    var id := s.threads[t].id;
    assert ExecutionOk(s, id);
    if s.threads[t].Executing? {
      if ch.HandlerReturns? {
        OwnKeepsInv(s, ActStep(s, t, ch), t, id);
      } else if ch.HandlerThrows? {
        GotoKeepsInv(s, t, Releasing(id));
      }
    } else if ch.DbFails? {
      GotoKeepsInv(s, t, Finished(Thrown));
    } else {
      OwnKeepsInv(s, ActStep(s, t, ch), t, id);
    }
  }

  lemma {:induction false} RunKeepsInv(labels: seq<Label>)
    ensures Inv(Run(labels))
    decreases |labels|
  {
    if labels != [] {
      RunKeepsInv(labels[..|labels| - 1]);
      StepKeepsInv(Run(labels[..|labels| - 1]), labels[|labels| - 1]);
    }
  }

  // ----- the guarantees -----

  // Executions are numbered in the order their rows were created. One that returned
  // below 500 - or never finished - keeps every later one more than 30 minutes away.
  lemma ExecutionsAreSpaced(labels: seq<Label>, first: nat, later: nat)
    requires var s := Run(labels); first in s.executions && later in s.executions && first < later
    requires var e := Run(labels).executions[first]; !e.released || (e.result.Some? && e.result.value.status < 500)
    ensures var s := Run(labels); s.executions[later].createdAt > s.executions[first].now + TTL
  {
    RunKeepsInv(labels);
    assert ExecutionOk(Run(labels), first);
  }

  // Executions are numbered without gaps, the newest one holds the row until it releases
  // it, and one that has not released lies more than the expiry before the next.
  ghost predicate Chain(s: State) {
    && (forall id: nat :: id in s.executions <==> id < s.nextId)
    && (s.nextId > 0 && !s.executions[s.nextId - 1].released ==> RowIs(s, s.nextId - 1))
    && (forall d: nat | d + 1 < s.nextId && !s.executions[d].released :: Follows(s.executions[d], s.executions[d + 1]))
  }

  ghost predicate Follows(e: Execution, next: Execution) {
    next.now > e.now + TTL
  }

  // A step that leaves the clock readings alone, releases none but `id`, and takes the
  // row away from none but `id`.
  lemma SameReadingsKeepChain(s: State, s': State, id: nat)
    requires Chain(s) && s'.nextId == s.nextId && s'.executions.Keys == s.executions.Keys
    requires forall d | d in s.executions ::
               && s'.executions[d].now == s.executions[d].now
               && (s.executions[d].released ==> s'.executions[d].released)
               && (d != id ==> s'.executions[d].released == s.executions[d].released)
    requires forall d | d in s.executions && RowIs(s, d) :: RowIs(s', d) || s'.executions[d].released
    ensures Chain(s')
  {
    forall d: nat | d + 1 < s'.nextId && !s'.executions[d].released
      ensures Follows(s'.executions[d], s'.executions[d + 1])
    {
      assert d in s.executions && d + 1 in s.executions;
      assert Follows(s.executions[d], s.executions[d + 1]);
    }
  }

  lemma CreateKeepsChain(s: State, t: nat, hash: string, now: nat)
    requires Inv(s) && Chain(s) && t in s.threads && s.threads[t] == Clocked(hash, now)
    requires GetOrCreateTx(s.row, hash, now, s.nextId).1
    ensures Chain(ActStep(s, t, Go))
  {
    var s' := ActStep(s, t, Go);
    if s.nextId > 0 && !s.executions[s.nextId - 1].released {
      assert ExecutionOk(s, s.nextId - 1);
    }
    forall d: nat | d + 1 < s'.nextId && !s'.executions[d].released
      ensures Follows(s'.executions[d], s'.executions[d + 1])
    {
      if d + 1 < s.nextId { assert Follows(s.executions[d], s.executions[d + 1]); }
    }
  }

  lemma OwnerKeepsChain(s: State, t: nat, ch: Choice)
    requires Inv(s) && Chain(s) && t in s.threads
    requires s.threads[t].Executing? || s.threads[t].Persisting? || s.threads[t].Releasing?
    ensures Chain(ActStep(s, t, ch))
  {
    ThreadsOwn(s, t);
    hide Inv, Chain;
    OwnerTouchesItsOwn(s, t, ch);
    hide ActStep;
    SameReadingsKeepChain(s, ActStep(s, t, ch), s.threads[t].id);
  }

  // The owner changes the result and the marks of its own execution, and gives up no row
  // but its own, releasing it.
  lemma OwnerTouchesItsOwn(s: State, t: nat, ch: Choice)
    requires t in s.threads && (s.threads[t].Executing? || s.threads[t].Persisting? || s.threads[t].Releasing?)
    requires s.threads[t].id in s.executions
    ensures var s', id := ActStep(s, t, ch), s.threads[t].id;
            && s'.nextId == s.nextId && s'.executions.Keys == s.executions.Keys
            && (forall d | d in s.executions ::
                  && s'.executions[d].now == s.executions[d].now
                  && (s.executions[d].released ==> s'.executions[d].released)
                  && (d != id ==> s'.executions[d].released == s.executions[d].released))
            && (forall d | d in s.executions && RowIs(s, d) :: RowIs(s', d) || s'.executions[d].released)
  {
  }

  lemma StepKeepsChain(s: State, l: Label)
    requires Inv(s) && Chain(s)
    ensures Chain(Step(s, l))
  {
    if l.Act? && l.t in s.threads {
      match s.threads[l.t]
      case Executing(_) => OwnerKeepsChain(s, l.t, l.choice);
      case Persisting(_, _) => OwnerKeepsChain(s, l.t, l.choice);
      case Releasing(_) => OwnerKeepsChain(s, l.t, l.choice);
      case Clocked(hash, now) =>
        if !l.choice.DbFails? && GetOrCreateTx(s.row, hash, now, s.nextId).1 {
          CreateKeepsChain(s, l.t, hash, now);
        } else {
          SameReadingsKeepChain(s, Step(s, l), 0);
        }
      case _ => SameReadingsKeepChain(s, Step(s, l), 0);
    } else {
      SameReadingsKeepChain(s, Step(s, l), 0);
    }
  }

  lemma {:induction false} RunKeepsChain(labels: seq<Label>)
    ensures Chain(Run(labels))
    decreases |labels|
  {
    if labels != [] {
      RunKeepsChain(labels[..|labels| - 1]);
      RunKeepsInv(labels[..|labels| - 1]);
      StepKeepsChain(Run(labels[..|labels| - 1]), labels[|labels| - 1]);
      hide Inv, Step;
    } else {
      assert Chain(INITIAL);
    }
  }

  lemma {:induction false} ChainAddsUp(s: State, first: nat, later: nat)
    requires Chain(s) && first < later < s.nextId
    requires forall d | first <= d < later :: !s.executions[d].released
    ensures s.executions[later].now > s.executions[first].now + TTL
    decreases later
  {
    assert Follows(s.executions[later - 1], s.executions[later]);
    if first < later - 1 { ChainAddsUp(s, first, later - 1); }
  }

  // The clock readings themselves are more than 30 minutes apart as long as no execution
  // from the first up to the later one has given its record back.
  lemma ReadingsAreSpaced(labels: seq<Label>, first: nat, later: nat)
    requires var s := Run(labels); first < later && first in s.executions && later in s.executions
    requires forall d | first <= d < later && d in Run(labels).executions :: !Run(labels).executions[d].released
    ensures Run(labels).executions[later].now > Run(labels).executions[first].now + TTL
  {
    RunKeepsChain(labels);
    ChainAddsUp(Run(labels), first, later);
  }

  // Until the record expires, every request that gets to the table is answered with
  // the stored response if its hash is the same and refused with 409 if it is not,
  // whether its own transaction succeeds or fails.
  lemma ReplayedUntilExpiry(labels: seq<Label>, id: nat, t: nat)
    requires var s := Run(labels);
             && id in s.executions && s.executions[id].stored
             && s.clock <= s.executions[id].now + TTL
             && t in s.threads && (s.threads[t].Clocked? || s.threads[t].TxFailed?)
    ensures var s := Run(labels); var e := s.executions[id];
            var s' := ActStep(s, t, Go);
            && e.result.Some? && t in s'.threads && s'.row == s.row && s'.executions == s.executions
            && ActStep(s', t, Go).threads[t] ==
               Finished(if s.threads[t].hash == e.hash then Replay(StoredForm(e.result.value)) else Conflict)
  {
    RunKeepsInv(labels);
    var s := Run(labels);
    assert ExecutionOk(s, id) && ThreadOk(s, t);
  }

  // ----- what a request is told -----

  // The hash a request came with.
  function HashOf(labels: seq<Label>, t: nat): Option<string> {
    if labels == [] then None
    else
      var before, l := HashOf(labels[..|labels| - 1], t), labels[|labels| - 1];
      if before.Some? then before else if l.Arrive? && l.t == t then Some(l.hash) else None
  }

  // Execution `id`, of a request with this hash, has been stored with this status and body.
  ghost predicate IsStoredAs(s: State, id: nat, hash: string, x: Stored) {
    && id in s.executions && s.executions[id].stored && s.executions[id].hash == hash
    && s.executions[id].result.Some?
    && x.status == s.executions[id].result.value.status
    && x.body == (match s.executions[id].result.value.content case Some(content) => content case None => "")
  }

  ghost predicate HasHash(s: State, id: nat, hash: string) {
    id in s.executions && s.executions[id].hash == hash
  }

  ghost predicate IsOwn(s: State, id: nat, t: nat, r: Response) {
    id in s.executions && s.executions[id].thread == t && s.executions[id].result == Some(r)
  }

  // What lies behind each answer: a replay an execution under the same hash that has been
  // stored so, a conflict one under another hash, a refusal as running one under the same
  // hash, and an answer of its own the request's own execution.
  ghost predicate IsFounded(s: State, t: nat, hash: string, reply: Reply) {
    match reply
    case Replay(x) => exists id :: IsStoredAs(s, id, hash, x)
    case Conflict => exists id, other :: HasHash(s, id, other) && other != hash
    case InProgress => exists id :: HasHash(s, id, hash)
    case Own(r) => exists id :: HasHash(s, id, hash) && IsOwn(s, id, t, r)
    case Thrown => true
    case _ => false
  }

  ghost predicate IsKnown(s: State, rec: Rec) {
    HasHash(s, rec.id, rec.hash) && (rec.response.Some? ==> IsStoredAs(s, rec.id, rec.hash, rec.response.value))
  }

  ghost predicate PcFounded(s: State, t: nat, hash: string)
    requires t in s.threads
  {
    match s.threads[t]
    case Arrived(h) => h == hash
    case Clocked(h, _) => h == hash
    case TxFailed(h) => h == hash
    case Holds(h, rec) => h == hash && IsKnown(s, rec)
    case Executing(id) => HasHash(s, id, hash)
    case Persisting(id, r) => HasHash(s, id, hash) && IsOwn(s, id, t, r)
    case Releasing(id) => HasHash(s, id, hash)
    case Finished(reply) => IsFounded(s, t, hash, reply)
  }

  // Executions keep their request, and what they have returned and stored.
  ghost predicate ExecutionsGrow(s: State, s': State) {
    forall id | id in s.executions ::
      && id in s'.executions && s'.executions[id].hash == s.executions[id].hash
      && s'.executions[id].thread == s.executions[id].thread
      && (s.executions[id].result.Some? ==> s'.executions[id].result == s.executions[id].result)
      && (s.executions[id].stored ==> s'.executions[id].stored)
  }

  lemma StepGrowsExecutions(s: State, l: Label)
    requires Inv(s)
    ensures ExecutionsGrow(s, Step(s, l))
  {
    if l.Act? && l.t in s.threads {
      ThreadsOwn(s, l.t);
      hide Inv;
      if s.threads[l.t].Clocked? {
        NextIsNew(s);
      }
    }
  }

  lemma NextIsNew(s: State)
    requires Inv(s)
    ensures s.nextId !in s.executions
  {
    assert s.nextId in s.executions ==> ExecutionOk(s, s.nextId);
  }

  lemma GrowingKeepsFounded(s: State, s': State, t: nat, hash: string)
    requires ExecutionsGrow(s, s') && t in s.threads && t in s'.threads && s'.threads[t] == s.threads[t]
    requires PcFounded(s, t, hash)
    ensures PcFounded(s', t, hash)
  {
    forall id, h | HasHash(s, id, h) ensures HasHash(s', id, h) {
    }
    forall id, h, x | IsStoredAs(s, id, h, x) ensures IsStoredAs(s', id, h, x) {
    }
    forall id, u, r | IsOwn(s, id, u, r) ensures IsOwn(s', id, u, r) {
    }
    hide ExecutionsGrow, HasHash, IsStoredAs, IsOwn;
  }

  lemma RowIsKnown(s: State)
    requires Inv(s) && s.row.Some?
    ensures IsKnown(s, s.row.value)
  {
    assert ExecutionOk(s, s.row.value.id);
  }

  // The record is looked up, and the answer given from it.
  lemma LookupIsFounded(s: State, t: nat, ch: Choice, hash: string)
    requires Inv(s) && t in s.threads && PcFounded(s, t, hash)
    requires s.threads[t].Clocked? || s.threads[t].TxFailed?
    ensures PcFounded(ActStep(s, t, ch), t, hash)
  {
    if s.row.Some? { RowIsKnown(s); }
    hide Inv;
    var s' := ActStep(s, t, ch);
    if s.threads[t].Clocked? && s'.threads[t].Executing? {
      assert HasHash(s', s.nextId, hash);
    } else {
      assert s'.executions == s.executions;
      if s'.threads[t].Holds? { KnownStays(s, s', s.row.value); }
    }
  }

  lemma KnownStays(s: State, s': State, rec: Rec)
    requires IsKnown(s, rec) && s'.executions == s.executions
    ensures IsKnown(s', rec)
  {
  }

  lemma DecisionIsFounded(s: State, t: nat, rec: Rec, hash: string)
    requires IsKnown(s, rec)
    ensures IsFounded(s, t, hash, Decide(rec, hash))
  {
    assert HasHash(s, rec.id, rec.hash);
    if rec.response.Some? { assert IsStoredAs(s, rec.id, rec.hash, rec.response.value); }
  }

  lemma OwnAnswerIsFounded(s: State, t: nat, hash: string, id: nat, r: Response)
    requires HasHash(s, id, hash) && IsOwn(s, id, t, r)
    ensures IsFounded(s, t, hash, Own(r))
  {
  }

  lemma OwnActIsFounded(s: State, t: nat, ch: Choice, hash: string)
    requires Inv(s) && t in s.threads && PcFounded(s, t, hash)
    ensures PcFounded(ActStep(s, t, ch), t, hash)
  {
    var s' := ActStep(s, t, ch);
    match s.threads[t]
    case Clocked(_, _) => LookupIsFounded(s, t, ch, hash);
    case TxFailed(_) => LookupIsFounded(s, t, ch, hash);
    case Holds(_, rec) =>
      KnownStays(s, s', rec);
      DecisionIsFounded(s', t, rec, hash);
    case Executing(_) => OwnerIsFounded(s, t, ch, hash);
    case Persisting(_, _) => OwnerIsFounded(s, t, ch, hash);
    case Releasing(_) => OwnerIsFounded(s, t, ch, hash);
    case _ =>
  }

  lemma OwnerIsFounded(s: State, t: nat, ch: Choice, hash: string)
    requires Inv(s) && t in s.threads && PcFounded(s, t, hash)
    requires s.threads[t].Executing? || s.threads[t].Persisting? || s.threads[t].Releasing?
    ensures PcFounded(ActStep(s, t, ch), t, hash)
  {
    ThreadsOwn(s, t);
    hide Inv;
    var s', id := ActStep(s, t, ch), s.threads[t].id;
    assert HasHash(s', id, hash);
    if s.threads[t].Persisting? {
      var r := s.threads[t].response;
      assert IsOwn(s', id, t, r);
      OwnAnswerIsFounded(s', t, hash, id, r);
    }
    hide IsFounded;
  }

  lemma StepKeepsFounded(labels: seq<Label>, l: Label)
    requires Inv(Run(labels))
    requires forall t :: t in Run(labels).threads <==> HashOf(labels, t).Some?
    requires forall t :: t in Run(labels).threads ==> PcFounded(Run(labels), t, HashOf(labels, t).value)
    ensures var s := Step(Run(labels), l);
            && (forall t :: t in s.threads <==> HashOf(labels + [l], t).Some?)
            && (forall t :: t in s.threads ==> PcFounded(s, t, HashOf(labels + [l], t).value))
  {
    var s := Run(labels);
    var s' := Step(s, l);
    StepGrowsExecutions(s, l);
    forall t
      ensures HashOf(labels + [l], t) ==
              if HashOf(labels, t).Some? then HashOf(labels, t) else if l.Arrive? && l.t == t then Some(l.hash) else None
    {
      assert (labels + [l])[..|labels|] == labels;
    }
    StepThreads(s, l);
    hide Inv, Run, HashOf, ExecutionsGrow, PcFounded;
    forall t | t in s'.threads ensures PcFounded(s', t, HashOf(labels + [l], t).value) {
      if t !in s.threads {
        ArrivalIsFounded(s, l, t);
      } else if l.Act? && l.t == t {
        OwnActIsFounded(s, t, l.choice, HashOf(labels, t).value);
      } else {
        GrowingKeepsFounded(s, s', t, HashOf(labels, t).value);
      }
    }
  }

  lemma ArrivalIsFounded(s: State, l: Label, t: nat)
    requires t !in s.threads && t in Step(s, l).threads
    ensures l.Arrive? && l.t == t && PcFounded(Step(s, l), t, l.hash)
  {
  }

  lemma StepThreads(s: State, l: Label)
    ensures forall t :: t in Step(s, l).threads <==> t in s.threads || (l.Arrive? && l.t == t)
    ensures forall t :: t in s.threads && !(l.Act? && l.t == t) ==> Step(s, l).threads[t] == s.threads[t]
  {
  }

  lemma {:induction false} RunIsFounded(labels: seq<Label>)
    ensures forall t :: t in Run(labels).threads <==> HashOf(labels, t).Some?
    ensures forall t :: t in Run(labels).threads ==> PcFounded(Run(labels), t, HashOf(labels, t).value)
    decreases |labels|
  {
    if labels != [] {
      var front, l := labels[..|labels| - 1], labels[|labels| - 1];
      assert labels == front + [l];
      RunIsFounded(front);
      RunKeepsInv(front);
      StepKeepsFounded(front, l);
      hide Step, PcFounded, Inv, HashOf;
    }
  }

  // No request is ever told anything that did not happen.
  lemma AnswersAreFounded(labels: seq<Label>, t: nat)
    requires t in Run(labels).threads && Run(labels).threads[t].Finished?
    ensures HashOf(labels, t).Some? && IsFounded(Run(labels), t, HashOf(labels, t).value, Run(labels).threads[t].reply)
  {
    RunIsFounded(labels);
  }

  // It has ended with an exception, or is on its way there.
  predicate Ails(s: State, t: nat) {
    t in s.threads && (s.threads[t] == Finished(Thrown) || s.threads[t].TxFailed? || s.threads[t].Releasing?)
  }

  lemma StepAils(s: State, l: Label, t: nat)
    requires Ails(Step(s, l), t) && !Ails(s, t)
    ensures l == Act(t, DbFails) || l == Act(t, HandlerThrows)
  {
    hide GetOrCreateTx, Decide, StoreResponse, DeleteRow;
    DecisionsDoNotThrow(s, t);
  }

  lemma DecisionsDoNotThrow(s: State, t: nat)
    ensures t in s.threads && s.threads[t].Holds? ==> Decide(s.threads[t].rec, s.threads[t].hash) != Thrown
  {
  }

  // And none ends with an exception unless its own handler threw or its own statement failed.
  lemma {:induction false} ThrownHasACause(labels: seq<Label>, t: nat)
    requires Ails(Run(labels), t)
    ensures Act(t, DbFails) in labels || Act(t, HandlerThrows) in labels
    decreases |labels|
  {
    var front, l := labels[..|labels| - 1], labels[|labels| - 1];
    assert l in labels && forall x :: x in front ==> x in labels;
    if Ails(Run(front), t) {
      ThrownHasACause(front, t);
    } else {
      StepAils(Run(front), l, t);
    }
    hide Step, Ails;
  }

  // While a handler still runs, a request that finds its record is refused: as running if
  // it is the same request, as a conflict if it is another; the record stays as it is.
  lemma RunningIsRefused(labels: seq<Label>, id: nat, t: nat)
    requires var s := Run(labels);
             && id in s.executions && !s.executions[id].stored && RowIs(s, id) && t in s.threads
             && (s.threads[t].TxFailed? || (s.threads[t].Clocked? && s.threads[t].now <= s.executions[id].now + TTL))
    ensures var s := Run(labels); var s' := ActStep(s, t, Go);
            && t in s'.threads && s'.row == s.row && s'.executions == s.executions
            && ActStep(s', t, Go).threads[t] ==
               Finished(if s.threads[t].hash == s.executions[id].hash then InProgress else Conflict)
  {
    RunKeepsInv(labels);
    assert ExecutionOk(Run(labels), id);
  }

  // A request that finds no record, or an expired one, runs its handler; one that answers
  // below 500 is stored as it answered.
  lemma FreshRequestRuns(labels: seq<Label>, t: nat, r: Response)
    requires var s := Run(labels);
             t in s.threads && s.threads[t].Clocked? && (s.row.Some? ==> s.row.value.expiresAt < s.threads[t].now)
    ensures var s := Run(labels);
            var s' := ActStep(s, t, Go);
            && t in s'.threads && s'.threads[t] == Executing(s.nextId)
            && var e := ActStep(s', t, HandlerReturns(r));
               && t in e.threads
               && var p := ActStep(e, t, Go);
                  && t in p.threads && p.threads[t] == Finished(Own(r))
                  && (r.status < 500 ==> IsStoredAs(p, s.nextId, s.threads[t].hash, Stored(r.status, r.content.GetOr("")))
                                         && RowIs(p, s.nextId) && p.row.value.expiresAt == s.threads[t].now + 1800)
                  && (r.status >= 500 ==> p.row == None)
  {
  }

  lemma Then(labels: seq<Label>, s: State, l: Label) returns (labels': seq<Label>, s': State)
    requires Run(labels) == s
    ensures labels' == labels + [l] && s' == Step(s, l) && Run(labels') == s'
  {
    labels', s' := labels + [l], Step(s, l);
    assert labels'[..|labels|] == labels;
  }

  // Between the two clock readings the spacing can fail when an execution in between has
  // given its record back: a request that read the clock just before the expiry may still
  // run after another one has come and gone.
  lemma ClockReadingsMayBeClose() returns (labels: seq<Label>)
    ensures var s := Run(labels);
            && 0 in s.executions && 2 in s.executions
            && s.executions[0].stored
            && 1 in s.executions && s.executions[1].released
            && s.executions[2].now <= s.executions[0].now + TTL
  {
    var s: State;
    labels, s := FirstRequest();
    hide Run;
    labels, s := Then(labels, s, Tick(TTL - 1));
    labels, s := ReadClock(labels, s, 1);
    labels, s := Then(labels, s, Tick(2));
    labels, s := ReadClock(labels, s, 2);
    labels, s := ComeAndGo(labels, s, 2, TTL + 1);
    labels, s := Then(labels, s, Act(1, Go));
  }

  // Whether handlers may throw or answer 5xx, which gives the record back.
  predicate Permits(failures: bool, l: Label) {
    l.Act? && (l.choice.HandlerThrows? || (l.choice.HandlerReturns? && l.choice.response.status >= 500)) ==> failures
  }

  ghost predicate Permitted(failures: bool, labels: seq<Label>) {
    forall l :: l in labels ==> Permits(failures, l)
  }

  ghost predicate AllReadingsSpaced(s: State) {
    forall first, later | first in s.executions && later in s.executions && first < later ::
      Follows(s.executions[first], s.executions[later])
  }

  // No record is given back, and none is about to be.
  ghost predicate NothingReleased(s: State) {
    && (forall id :: id in s.executions ==> !s.executions[id].released)
    && (forall t :: t in s.threads ==> !s.threads[t].Releasing?)
    && (forall t :: t in s.threads && s.threads[t].Persisting? ==> s.threads[t].response.status < 500)
  }

  lemma StepReleasesNothing(s: State, l: Label)
    requires NothingReleased(s) && Permits(false, l)
    ensures NothingReleased(Step(s, l))
  {
  }

  lemma {:induction false} RunReleasesNothing(labels: seq<Label>)
    requires Permitted(false, labels)
    ensures NothingReleased(Run(labels))
    decreases |labels|
  {
    if labels != [] {
      RunReleasesNothing(labels[..|labels| - 1]);
      assert Permits(false, labels[|labels| - 1]);
      StepReleasesNothing(Run(labels[..|labels| - 1]), labels[|labels| - 1]);
    }
  }

  // The clock readings of any two executions are more than 30 minutes apart on all runs
  // exactly if no handler gives its record back.
  lemma ReadingsSpacedIff(failures: bool)
    ensures (forall labels | Permitted(failures, labels) :: AllReadingsSpaced(Run(labels))) <==> !failures
  {
    if failures {
      var labels := ClockReadingsMayBeClose();
      assert Permitted(failures, labels);
      assert !Follows(Run(labels).executions[0], Run(labels).executions[2]);
      assert !AllReadingsSpaced(Run(labels));
    } else {
      forall labels | Permitted(failures, labels) ensures AllReadingsSpaced(Run(labels)) {
        RunReleasesNothing(labels);
        forall first, later | first in Run(labels).executions && later in Run(labels).executions && first < later
          ensures Follows(Run(labels).executions[first], Run(labels).executions[later])
        {
          ReadingsAreSpaced(labels, first, later);
        }
      }
    }
  }

  const FIRST := Execution(0, "a", 0, 0, Some(Response(200, None)), true, false)

  // Request 0 finds no record and starts its handler.
  lemma FirstExecution() returns (labels: seq<Label>, s: State)
    ensures Run(labels) == s
    ensures s == State(Some(Rec(0, "a", TTL, None)), 1, 0, map[0 := Executing(0)],
                       map[0 := FIRST.(result := None, stored := false)])
  {
    labels, s := [], INITIAL;
    assert Run(labels) == s;
    hide Run;
    labels, s := Then(labels, s, Arrive(0, "a"));
    labels, s := Then(labels, s, Act(0, Go));
    assert s.threads == map[0 := Clocked("a", 0)];
    labels, s := Then(labels, s, Act(0, Go));
  }

  // Its response is stored.
  lemma FirstRequest() returns (labels: seq<Label>, s: State)
    ensures Run(labels) == s
    ensures s.executions == map[0 := FIRST] && s.row == Some(Rec(0, "a", TTL, Some(Stored(200, ""))))
    ensures s.nextId == 1 && s.clock == 0 && s.threads.Keys == {0}
  {
    hide Run;
    labels, s := FirstExecution();
    labels, s := Then(labels, s, Act(0, HandlerReturns(Response(200, None))));
    labels, s := Then(labels, s, Act(0, Go));
  }

  lemma ReadClock(labels0: seq<Label>, s0: State, t: nat) returns (labels: seq<Label>, s: State)
    requires Run(labels0) == s0 && t !in s0.threads
    ensures Run(labels) == s && s == Goto(s0, t, Clocked("a", s0.clock))
  {
    hide Run;
    labels, s := Then(labels0, s0, Arrive(t, "a"));
    labels, s := Then(labels, s, Act(t, Go));
  }

  // A request finds the row expired, runs, throws, and removes its own row.
  lemma ComeAndGo(labels0: seq<Label>, s0: State, t: nat, now: nat) returns (labels: seq<Label>, s: State)
    requires Run(labels0) == s0 && t in s0.threads && s0.threads[t] == Clocked("a", now)
    requires s0.row.Some? && s0.row.value.expiresAt < now
    ensures Run(labels) == s
    ensures s.row == None && s.nextId == s0.nextId + 1 && s.threads == s0.threads[t := Finished(Thrown)]
    ensures s0.nextId in s.executions && s.executions == s0.executions[s0.nextId := s.executions[s0.nextId]]
    ensures s.executions[s0.nextId].released
  {
    hide Run;
    labels, s := Then(labels0, s0, Act(t, Go));
    labels, s := Then(labels, s, Act(t, HandlerThrows));
    assert s.threads == s0.threads[t := Releasing(s0.nextId)];
    labels, s := Then(labels, s, Act(t, Go));
  }
}
