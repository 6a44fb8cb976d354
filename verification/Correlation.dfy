/** Matching responses to the futures that wait for them: one table from
    request ids to futures, shared by callers, a receiver and a disconnect
    handler whose steps interleave freely. */
module Correlation {
  import opened Basics

  type RequestId = string
  type FutureId = nat

  /** A response, with the request id it carries. */
  datatype Message = Message(request: RequestId, body: string)

  datatype Outcome =
    | Waiting
    | Answered(message: Message)
    | Failed(error: string)
    | Cancelled

  /** `pending` is the table; `scheduled` holds settlements handed to another
      event loop that have not run yet. The last two fields record history: the
      request each future was created for, and how often each future has left
      the table. A request id may be registered again: the client's
      `join_user_channel` sends one request object twice. */
  datatype Net = Net(
    pending: map<RequestId, FutureId>,
    futures: map<FutureId, Outcome>,
    scheduled: set<(FutureId, Outcome)>,
    origin: map<FutureId, RequestId>,
    departed: multiset<FutureId>)

  const EMPTY_NET: Net := Net(map[], map[], {}, map[], multiset{})

  /** `set_result` and `set_exception`: a future that is done stays as it is. */
  function Settle(n: Net, f: FutureId, o: Outcome): Net {
    if f in n.futures && n.futures[f] == Waiting then n.(futures := n.futures[f := o]) else n
  }

  /** Settles at once, or schedules it when the future lives on another loop;
      nothing is done for a future that is done already. */
  function SettleOrSchedule(n: Net, f: FutureId, o: Outcome, later: bool): Net {
    if f !in n.futures || n.futures[f] != Waiting then n
    else if later then n.(scheduled := n.scheduled + {(f, o)})
    else Settle(n, f, o)
  }

  /** Stores a new future under the request id, whatever was there. */
  function Register(n: Net, r: RequestId, f: FutureId): Net {
    n.(pending := n.pending[r := f], futures := n.futures[f := Waiting], origin := n.origin[f := r],
    departed := if r in n.pending then n.departed + multiset{n.pending[r]} else n.departed)
  }

  /** Keeps and returns a future already stored under the id. */
  function RegisterOnce(n: Net, r: RequestId, f: FutureId): Net {
    if r in n.pending then n else Register(n, r, f)
  }

  function Depart(n: Net, r: RequestId): Net {
    if r in n.pending then n.(pending := n.pending - {r}, departed := n.departed + multiset{n.pending[r]}) else n
  }

  /** A response takes its future out of the table and settles it. */
  function Respond(n: Net, m: Message, later: bool): Net {
    if m.request !in n.pending then n
    else SettleOrSchedule(Depart(n, m.request), n.pending[m.request], Answered(m), later)
  }

  /** A scheduled settlement runs. */
  function Deliver(n: Net, f: FutureId, o: Outcome): Net {
    if (f, o) in n.scheduled then Settle(n.(scheduled := n.scheduled - {(f, o)}), f, o) else n
  }

  /** `wait_for` gives up and cancels its future. */
  function TimeOut(n: Net, f: FutureId): Net {
    Settle(n, f, Cancelled)
  }

  /** Fails every waiting future of `fs`; those in `later` live on another
      loop. */
  function FailThese(n: Net, fs: set<FutureId>, error: string, later: set<FutureId>): Net {
    n.(futures := map f | f in n.futures ::
                    if n.futures[f] == Waiting && f in fs && f !in later then Failed(error) else n.futures[f],
    scheduled := n.scheduled + set f | f in fs && f in later && f in n.futures && n.futures[f] == Waiting
                                   :: (f, Failed(error)))
  }

  /** Empties the table, then fails what was in it. */
  function FailAll(n: Net, error: string, later: set<FutureId>): Net {
    FailThese(n, n.pending.Values, error, later).(pending := map[], departed := n.departed + multiset(n.pending.Values))
  }

  // ---------- The table object ----------

  class PendingTable {
    var pending: map<RequestId, FutureId>
    var futures: map<FutureId, Outcome>
    var scheduled: set<(FutureId, Outcome)>
    ghost var origin: map<FutureId, RequestId>
    ghost var departed: multiset<FutureId>

    ghost function View(): Net
      reads this
    {
      Net(pending, futures, scheduled, origin, departed)
    }

    constructor ()
      ensures View() == EMPTY_NET
    {
      pending, futures, scheduled := map[], map[], {};
      origin, departed := map[], multiset{};
    }

    /** `_register_pending_intent`. */
    method RegisterPendingIntent(r: RequestId, created: FutureId) returns (f: FutureId)
      requires created !in futures
      modifies this
      ensures View() == RegisterOnce(old(View()), r, created)
      ensures r in pending && f == pending[r]
      ensures r in old(pending) ==> f == old(pending[r])
    {
      if r in pending {
        return pending[r];
      }
      RegisterPendingResponse(r, created);
      f := created;
    }

    /** `_register_pending_response`, and the registration in
        `send_agent_request`. */
    method RegisterPendingResponse(r: RequestId, created: FutureId)
      requires created !in futures
      modifies this
      ensures View() == Register(old(View()), r, created)
    {
      departed := if r in pending then departed + multiset{pending[r]} else departed;
      futures := futures[created := Waiting];
      pending := pending[r := created];
      origin := origin[created := r];
    }

    /** `_clear_pending_intent` and `_clear_pending_response`. */
    method ClearPending(r: RequestId)
      modifies this
      ensures View() == Depart(old(View()), r)
    {
      if r in pending {
        departed := departed + multiset{pending[r]};
        pending := pending - {r};
      }
    }

    /** `resolve_pending_intent`, `_resolve_pending_response` and the response
        branch of the bridge's receive loop. */
    method ResolvePending(m: Message, later: bool)
      modifies this
      ensures View() == Respond(old(View()), m, later)
    {
      if m.request !in pending {
        return;
      }
      var f := pending[m.request];
      ClearPending(m.request);
      SettleFuture(f, Answered(m), later);
    }

    /** Settles a future on its own loop, unless it is done. */
    method SettleFuture(f: FutureId, o: Outcome, later: bool)
      modifies this`futures, this`scheduled
      ensures View() == SettleOrSchedule(old(View()), f, o, later)
    {
      if f !in futures || futures[f] != Waiting {
        return;
      }
      if later {
        scheduled := scheduled + {(f, o)};
      } else {
        futures := futures[f := o];
      }
    }

    /** `_fail_all_pending` and `_fail_all_pending_responses`. */
    method FailAllPending(error: string, later: set<FutureId>)
      modifies this
      ensures View() == FailAll(old(View()), error, later)
    {
      var items := pending.Values;
      departed := departed + multiset(pending.Values);
      pending := map[];
      ghost var n := View();
      FailNone(n, error, later);
      var todo := items;
      while todo != {}
        invariant todo <= items && View() == FailThese(n, items - todo, error, later)
      {
        var f :| f in todo;
        ghost var done := items - todo;
        todo := todo - {f};
        assert items - todo == done + {f};
        FailOne(n, done, f, error, later);
        SettleFuture(f, Failed(error), f in later);
      }
      assert items - todo == items;
    }
  }

  lemma FailNone(n: Net, error: string, later: set<FutureId>)
    ensures FailThese(n, {}, error, later) == n
  {
  }

  lemma FailOne(n: Net, done: set<FutureId>, f: FutureId, error: string, later: set<FutureId>)
    ensures FailThese(n, done + {f}, error, later)
            == SettleOrSchedule(FailThese(n, done, error, later), f, Failed(error), f in later)
  {
  }

  // ---------- Interleavings ----------

  datatype NetStep =
    | RegisterStep(request: RequestId, future: FutureId)
    | RegisterOnceStep(request: RequestId, future: FutureId)
    | RespondStep(message: Message, later: bool)
    | DeliverStep(future: FutureId, outcome: Outcome)
    | TimeOutStep(future: FutureId)
    | ClearStep(request: RequestId)
    | FailAllStep(error: string, remote: set<FutureId>)

  function Next(n: Net, step: NetStep): Net {
    match step
    case RegisterStep(r, f) => Register(n, r, f)
    case RegisterOnceStep(r, f) => RegisterOnce(n, r, f)
    case RespondStep(m, later) => Respond(n, m, later)
    case DeliverStep(f, o) => Deliver(n, f, o)
    case TimeOutStep(f) => TimeOut(n, f)
    case ClearStep(r) => Depart(n, r)
    case FailAllStep(error, remote) => FailAll(n, error, remote)
  }

  /** The table after any steps of any callers, in any order, from `n`. */
  function RunFrom(n: Net, steps: seq<NetStep>): Net {
    if steps == [] then n else Next(RunFrom(n, steps[..|steps| - 1]), steps[|steps| - 1])
  }

  lemma {:induction false} RunFromAppend(n: Net, a: seq<NetStep>, b: seq<NetStep>)
    ensures RunFrom(n, a + b) == RunFrom(RunFrom(n, a), b)
  {
    if b == [] {
      assert a + b == a;
    } else {
      assert (a + b)[..|a + b| - 1] == a + b[..|b| - 1];
      RunFromAppend(n, a, b[..|b| - 1]);
    }
  }

  /** A registration creates a new future; its request id may have been used
      before, and may even be in the table. */
  predicate Allowed(n: Net, step: NetStep) {
    match step
    case RegisterStep(_, f) => f !in n.futures
    case RegisterOnceStep(r, f) => r in n.pending || f !in n.futures
    case _ => true
  }

  /** Every registration of the run creates a new future. */
  predicate NewFutures(n: Net, steps: seq<NetStep>) {
    steps == [] ||
    (NewFutures(n, steps[..|steps| - 1]) && Allowed(RunFrom(n, steps[..|steps| - 1]), steps[|steps| - 1]))
  }

  lemma {:induction false} NewFuturesAppend(n: Net, a: seq<NetStep>, b: seq<NetStep>)
    ensures NewFutures(n, a + b) <==> NewFutures(n, a) && NewFutures(RunFrom(n, a), b)
  {
    if b == [] {
      assert a + b == a;
    } else {
      assert (a + b)[..|a + b| - 1] == a + b[..|b| - 1];
      NewFuturesAppend(n, a, b[..|b| - 1]);
      RunFromAppend(n, a, b[..|b| - 1]);
    }
  }

  /** `o` may settle `f`: an answer carries the very request `f` waits for, and
      was received. */
  ghost predicate Fits(n: Net, received: set<Message>, f: FutureId, o: Outcome) {
    f in n.origin && (o.Answered? ==> o.message.request == n.origin[f] && o.message in received)
  }

  /** Every table entry leads to the future created for its request, which has
      at most timed out. */
  ghost predicate TableInv(n: Net) {
    && n.futures.Keys == n.origin.Keys
    && (forall r :: r in n.pending ==> n.pending[r] in n.origin && n.origin[n.pending[r]] == r)
    && (forall r :: r in n.pending ==> n.futures[n.pending[r]] in {Waiting, Cancelled})
  }

  predicate InTable(n: Net, f: FutureId) {
    f in n.origin && n.origin[f] in n.pending && n.pending[n.origin[f]] == f
  }

  /** A future is in the table until it leaves it, once and not to return. */
  ghost predicate DepartureInv(n: Net) {
    forall f :: n.departed[f] == if f in n.origin && !InTable(n, f) then 1 else 0
  }

  ghost predicate AnswersFit(n: Net, received: set<Message>) {
    && (forall f :: f in n.futures ==> Fits(n, received, f, n.futures[f]))
    && (forall s :: s in n.scheduled ==> Fits(n, received, s.0, s.1))
  }

  /** A future has at most one scheduled outcome, and only after it left the
      table. */
  ghost predicate ScheduleInv(n: Net) {
    && (forall s :: s in n.scheduled ==> s.0 in n.origin && s.1 != Waiting && !InTable(n, s.0))
    && (forall s, t :: s in n.scheduled && t in n.scheduled && s.0 == t.0 ==> s == t)
  }

  ghost predicate NetInv(n: Net, received: set<Message>) {
    TableInv(n) && DepartureInv(n) && AnswersFit(n, received) && ScheduleInv(n)
  }

  function Received(steps: seq<NetStep>): set<Message> {
    if steps == [] then {}
    else WithReceived(Received(steps[..|steps| - 1]), steps[|steps| - 1])
  }

  function WithReceived(received: set<Message>, step: NetStep): set<Message> {
    if step.RespondStep? then received + {step.message} else received
  }

  lemma RegisterKeepsTable(n: Net, r: RequestId, f: FutureId)
    requires TableInv(n) && DepartureInv(n) && f !in n.futures
    ensures TableInv(Register(n, r, f)) && DepartureInv(Register(n, r, f))
  {
    var t := Register(n, r, f);
    forall g ensures t.departed[g] == if g in t.origin && !InTable(t, g) then 1 else 0 {
      assert n.departed[g] == if g in n.origin && !InTable(n, g) then 1 else 0;
    }
  }

  lemma RegisterKeepsAnswers(n: Net, received: set<Message>, r: RequestId, f: FutureId)
    requires TableInv(n) && AnswersFit(n, received) && ScheduleInv(n) && f !in n.futures
    ensures AnswersFit(Register(n, r, f), received) && ScheduleInv(Register(n, r, f))
  {
    var t := Register(n, r, f);
    forall s | s in t.scheduled ensures Fits(t, received, s.0, s.1) {
      assert Fits(n, received, s.0, s.1);
    }
    forall g | g in t.futures ensures Fits(t, received, g, t.futures[g]) {
      assert g != f ==> Fits(n, received, g, n.futures[g]);
    }
  }

  lemma RegisterKeepsNet(n: Net, received: set<Message>, r: RequestId, f: FutureId)
    requires NetInv(n, received) && f !in n.futures
    ensures NetInv(Register(n, r, f), received)
  {
    RegisterKeepsTable(n, r, f);
    RegisterKeepsAnswers(n, received, r, f);
  }

  lemma RespondKeepsSchedule(n: Net, m: Message, later: bool)
    requires TableInv(n) && ScheduleInv(n)
    ensures ScheduleInv(Respond(n, m, later))
  {
  }

  lemma DepartKeepsDepartures(n: Net, r: RequestId)
    requires TableInv(n) && DepartureInv(n)
    ensures DepartureInv(Depart(n, r))
  {
    var t := Depart(n, r);
    forall g ensures t.departed[g] == if g in t.origin && !InTable(t, g) then 1 else 0 {
      assert n.departed[g] == if g in n.origin && !InTable(n, g) then 1 else 0;
    }
  }

  /** A step that leaves table and history alone keeps the departures. */
  lemma SameTableSameDepartures(n: Net, t: Net)
    requires DepartureInv(n) && t.pending == n.pending && t.origin == n.origin && t.departed == n.departed
    ensures DepartureInv(t)
  {
    forall g ensures t.departed[g] == if g in t.origin && !InTable(t, g) then 1 else 0 {
      assert InTable(t, g) == InTable(n, g);
    }
  }

  lemma RespondKeepsAnswers(n: Net, received: set<Message>, m: Message, later: bool)
    requires TableInv(n) && AnswersFit(n, received)
    ensures AnswersFit(Respond(n, m, later), received + {m})
  {
    var t := Respond(n, m, later);
    forall f | f in t.futures ensures Fits(t, received + {m}, f, t.futures[f]) {
      assert Fits(n, received, f, n.futures[f]);
    }
    forall s | s in t.scheduled ensures Fits(t, received + {m}, s.0, s.1) {
      if s in n.scheduled {
        assert Fits(n, received, s.0, s.1);
      }
    }
  }

  lemma RespondKeepsNet(n: Net, received: set<Message>, m: Message, later: bool)
    requires NetInv(n, received)
    ensures NetInv(Respond(n, m, later), received + {m})
  {
    RespondKeepsSchedule(n, m, later);
    RespondKeepsAnswers(n, received, m, later);
    DepartKeepsDepartures(n, m.request);
    if m.request in n.pending {
      SameTableSameDepartures(Depart(n, m.request), Respond(n, m, later));
    }
  }

  lemma FailAllKeepsSchedule(n: Net, error: string, later: set<FutureId>)
    requires TableInv(n) && ScheduleInv(n)
    ensures ScheduleInv(FailAll(n, error, later))
  {
  }

  lemma FailAllKeepsNet(n: Net, received: set<Message>, error: string, later: set<FutureId>)
    requires NetInv(n, received)
    ensures NetInv(FailAll(n, error, later), received)
  {
    var m := FailAll(n, error, later);
    FailAllKeepsSchedule(n, error, later);
    forall f | f in m.futures ensures Fits(m, received, f, m.futures[f]) {
      assert Fits(n, received, f, n.futures[f]);
    }
    forall s | s in m.scheduled ensures Fits(m, received, s.0, s.1) {
      if s in n.scheduled {
        assert Fits(n, received, s.0, s.1);
      }
    }
  }

  lemma DepartKeepsNet(n: Net, received: set<Message>, r: RequestId)
    requires NetInv(n, received)
    ensures NetInv(Depart(n, r), received)
  {
  }

  lemma SettleKeepsNet(n: Net, received: set<Message>, f: FutureId, o: Outcome)
    requires NetInv(n, received) && (!InTable(n, f) || o == Cancelled)
    requires f in n.origin ==> Fits(n, received, f, o)
    ensures NetInv(Settle(n, f, o), received)
  {
  }

  lemma DeliverKeepsNet(n: Net, received: set<Message>, f: FutureId, o: Outcome)
    requires NetInv(n, received)
    ensures NetInv(Deliver(n, f, o), received)
  {
  }

  lemma StepKeepsNet(n: Net, received: set<Message>, step: NetStep)
    requires NetInv(n, received) && Allowed(n, step)
    ensures NetInv(Next(n, step), WithReceived(received, step))
  {
    match step
    case RegisterStep(r, f) => RegisterKeepsNet(n, received, r, f);
    case RegisterOnceStep(r, f) =>
      if r !in n.pending {
        RegisterKeepsNet(n, received, r, f);
      }
    case RespondStep(m, later) => RespondKeepsNet(n, received, m, later);
    case ClearStep(r) => DepartKeepsNet(n, received, r);
    case FailAllStep(error, remote) => FailAllKeepsNet(n, received, error, remote);
    case DeliverStep(f, o) => DeliverKeepsNet(n, received, f, o);
    case TimeOutStep(f) => SettleKeepsNet(n, received, f, Cancelled);
  }

  /** In every interleaving, whatever ids are used: each future leaves the table
      at most once, and holds an answer only if that answer was received and
      carries the future's own request id. */
  lemma {:induction false} RunKeepsNet(steps: seq<NetStep>)
    requires NewFutures(EMPTY_NET, steps)
    ensures NetInv(RunFrom(EMPTY_NET, steps), Received(steps))
  {
    if steps != [] {
      RunKeepsNet(steps[..|steps| - 1]);
      StepKeepsNet(RunFrom(EMPTY_NET, steps[..|steps| - 1]), Received(steps[..|steps| - 1]), steps[|steps| - 1]);
    }
  }

  lemma {:induction false} StepKeepsSettled(n: Net, step: NetStep, f: FutureId)
    requires Allowed(n, step) && f in n.futures && n.futures[f] != Waiting
    ensures f in Next(n, step).futures && Next(n, step).futures[f] == n.futures[f]
  {
  }

  /** Once settled, a future's outcome never changes. */
  lemma {:induction false} SettledNeverChanges(n: Net, more: seq<NetStep>, f: FutureId)
    requires NewFutures(n, more) && f in n.futures && n.futures[f] != Waiting
    ensures f in RunFrom(n, more).futures && RunFrom(n, more).futures[f] == n.futures[f]
  {
    if more != [] {
      SettledNeverChanges(n, more[..|more| - 1], f);
      StepKeepsSettled(RunFrom(n, more[..|more| - 1]), more[|more| - 1], f);
    }
  }

  // ---------- No reply is lost, if registration comes first ----------

  /** No step answers, clears, fails, replaces or times out the request. */
  predicate LeavesAlone(step: NetStep, r: RequestId, f: FutureId) {
    match step
    case RegisterStep(q, _) => q != r
    case RespondStep(m, _) => m.request != r
    case ClearStep(q) => q != r
    case TimeOutStep(g) => g != f
    case FailAllStep(_, _) => false
    case _ => true
  }

  predicate Undisturbed(steps: seq<NetStep>, r: RequestId, f: FutureId) {
    forall k :: 0 <= k < |steps| ==> LeavesAlone(steps[k], r, f)
  }

  predicate NoTimeOut(steps: seq<NetStep>, f: FutureId) {
    forall k :: 0 <= k < |steps| ==> steps[k] != TimeOutStep(f)
  }

  /** `f` has the outcome, or will have it when its own loop runs. */
  ghost predicate Arrives(n: Net, f: FutureId, o: Outcome) {
    f in n.futures && (n.futures[f] == o || (n.futures[f] == Waiting && (f, o) in n.scheduled))
  }

  ghost predicate Waits(n: Net, r: RequestId, f: FutureId) {
    r in n.pending && n.pending[r] == f && f in n.futures && n.futures[f] == Waiting
  }

  lemma {:induction false} WaitingPersists(n: Net, received: set<Message>, mid: seq<NetStep>, r: RequestId, f: FutureId)
    returns (now: set<Message>)
    requires NetInv(n, received) && NewFutures(n, mid) && Undisturbed(mid, r, f) && Waits(n, r, f)
    ensures NetInv(RunFrom(n, mid), now) && Waits(RunFrom(n, mid), r, f)
  {
    if mid == [] {
      now := received;
    } else {
      var front := mid[..|mid| - 1];
      var step := mid[|mid| - 1];
      assert Undisturbed(front, r, f);
      now := WaitingPersists(n, received, front, r, f);
      var m := RunFrom(n, front);
      assert LeavesAlone(step, r, f);
      WaitingStep(m, step, r, f);
      StepKeepsNet(m, now, step);
      now := WithReceived(now, step);
    }
  }

  lemma WaitingStep(m: Net, step: NetStep, r: RequestId, f: FutureId)
    requires Waits(m, r, f) && LeavesAlone(step, r, f) && Allowed(m, step)
    requires TableInv(m) && ScheduleInv(m)
    ensures Waits(Next(m, step), r, f)
  {
  }

  lemma {:induction false} ArrivalPersists(n: Net, received: set<Message>, more: seq<NetStep>, f: FutureId, o: Outcome)
    returns (now: set<Message>)
    requires NetInv(n, received) && NewFutures(n, more) && NoTimeOut(more, f)
    requires Arrives(n, f, o) && o != Waiting && f in n.origin && !InTable(n, f)
    ensures NetInv(RunFrom(n, more), now) && Arrives(RunFrom(n, more), f, o)
    ensures f in RunFrom(n, more).origin && !InTable(RunFrom(n, more), f)
  {
    if more == [] {
      now := received;
    } else {
      var front := more[..|more| - 1];
      var step := more[|more| - 1];
      assert forall k :: 0 <= k < |front| ==> front[k] == more[k];
      now := ArrivalPersists(n, received, front, f, o);
      var m := RunFrom(n, front);
      ArrivalStep(m, step, f, o);
      StepKeepsNet(m, now, step);
      now := WithReceived(now, step);
    }
  }

  lemma ArrivalStep(m: Net, step: NetStep, f: FutureId, o: Outcome)
    requires Allowed(m, step) && step != TimeOutStep(f) && TableInv(m) && ScheduleInv(m)
    requires Arrives(m, f, o) && o != Waiting && f in m.origin && !InTable(m, f)
    ensures Arrives(Next(m, step), f, o)
    ensures f in Next(m, step).origin && !InTable(Next(m, step), f)
  {
  }

  /** Registered before the response arrives, a request gets its reply, in
      every interleaving, unless something else ends the wait first. */
  lemma ReplyIsNotLost(pre: seq<NetStep>, r: RequestId, f: FutureId, mid: seq<NetStep>, m: Message, later: bool,
                       more: seq<NetStep>)
    requires m.request == r && Undisturbed(mid, r, f) && NoTimeOut(more, f)
    requires NewFutures(EMPTY_NET, pre + [RegisterStep(r, f)] + mid + [RespondStep(m, later)] + more)
    ensures Arrives(RunFrom(EMPTY_NET, pre + [RegisterStep(r, f)] + mid + [RespondStep(m, later)] + more), f,
                    Answered(m))
  {
    var a := pre + [RegisterStep(r, f)];
    var b := a + mid;
    var c := b + [RespondStep(m, later)];
    NewFuturesAppend(EMPTY_NET, c, more);
    NewFuturesAppend(EMPTY_NET, b, [RespondStep(m, later)]);
    NewFuturesAppend(EMPTY_NET, a, mid);
    RunFromAppend(EMPTY_NET, c, more);
    RunFromAppend(EMPTY_NET, b, [RespondStep(m, later)]);
    RunFromAppend(EMPTY_NET, a, mid);
    assert a[..|a| - 1] == pre;
    RunKeepsNet(a);
    var n := RunFrom(EMPTY_NET, a);
    assert n == Register(RunFrom(EMPTY_NET, pre), r, f);
    var received := WaitingPersists(n, Received(a), mid, r, f);
    var w := RunFrom(EMPTY_NET, b);
    assert c[..|c| - 1] == b;
    var v := RunFrom(EMPTY_NET, c);
    assert v == Respond(w, m, later);
    RespondKeepsNet(w, received, m, later);
    var _ := ArrivalPersists(v, received + {m}, more, f, Answered(m));
  }

  /** No step carries a response to `r`. */
  predicate NoReplyTo(steps: seq<NetStep>, r: RequestId) {
    forall k :: 0 <= k < |steps| && steps[k].RespondStep? ==> steps[k].message.request != r
  }

  ghost predicate Unanswered(n: Net, f: FutureId, r: RequestId) {
    && f in n.origin && n.origin[f] == r && f in n.futures && !n.futures[f].Answered?
    && forall s :: s in n.scheduled && s.0 == f ==> !s.1.Answered?
  }

  lemma {:induction false} UnansweredPersists(n: Net, received: set<Message>, more: seq<NetStep>, f: FutureId,
                                              r: RequestId)
    returns (now: set<Message>)
    requires NetInv(n, received) && NewFutures(n, more) && NoReplyTo(more, r) && Unanswered(n, f, r)
    ensures NetInv(RunFrom(n, more), now) && Unanswered(RunFrom(n, more), f, r)
  {
    if more == [] {
      now := received;
    } else {
      var front := more[..|more| - 1];
      var step := more[|more| - 1];
      assert forall k :: 0 <= k < |front| ==> front[k] == more[k];
      now := UnansweredPersists(n, received, front, f, r);
      var m := RunFrom(n, front);
      assert step.RespondStep? ==> step.message.request != r;
      UnansweredStep(m, step, f, r);
      StepKeepsNet(m, now, step);
      now := WithReceived(now, step);
    }
  }

  lemma UnansweredStep(m: Net, step: NetStep, f: FutureId, r: RequestId)
    requires Unanswered(m, f, r) && Allowed(m, step) && TableInv(m)
    requires step.RespondStep? ==> step.message.request != r
    ensures Unanswered(Next(m, step), f, r)
  {
  }

  /** A response that arrives before its request is registered, as sending
      first allows, is lost: the future never gets an answer from it. */
  lemma EarlyReplyIsLost(pre: seq<NetStep>, m: Message, later: bool, mid: seq<NetStep>, f: FutureId, more: seq<NetStep>)
    requires NoReplyTo(more, m.request)
    requires NewFutures(EMPTY_NET, pre + [RespondStep(m, later)] + mid + [RegisterStep(m.request, f)] + more)
    ensures var n := RunFrom(EMPTY_NET, pre + [RespondStep(m, later)] + mid + [RegisterStep(m.request, f)] + more);
            Unanswered(n, f, m.request)
  {
    var a := pre + [RespondStep(m, later)] + mid;
    var b := a + [RegisterStep(m.request, f)];
    NewFuturesAppend(EMPTY_NET, b, more);
    RunFromAppend(EMPTY_NET, b, more);
    assert b[..|b| - 1] == a;
    NewFuturesAppend(EMPTY_NET, a, [RegisterStep(m.request, f)]);
    RunKeepsNet(a);
    RunKeepsNet(b);
    var n := RunFrom(EMPTY_NET, b);
    assert n == Register(RunFrom(EMPTY_NET, a), m.request, f);
    forall s | s in n.scheduled ensures s.0 != f {
      assert Fits(RunFrom(EMPTY_NET, a), Received(a), s.0, s.1);
    }
    var _ := UnansweredPersists(n, Received(b), more, f, m.request);
  }

  /** One request and its one response, in either order. */
  function Exchange(pre: seq<NetStep>, m: Message, later: bool, mid: seq<NetStep>, f: FutureId, more: seq<NetStep>,
                    registeredFirst: bool): seq<NetStep>
  {
    if registeredFirst then pre + [RegisterStep(m.request, f)] + mid + [RespondStep(m, later)] + more
    else pre + [RespondStep(m, later)] + mid + [RegisterStep(m.request, f)] + more
  }

  /** Unless something else ends the wait, a reply reaches its future exactly
      when the request was registered before the reply arrived. */
  lemma ReplyArrivesIff(pre: seq<NetStep>, m: Message, later: bool, mid: seq<NetStep>, f: FutureId,
                        more: seq<NetStep>, registeredFirst: bool)
    requires Undisturbed(mid, m.request, f) && NoTimeOut(more, f) && NoReplyTo(more, m.request)
    requires NewFutures(EMPTY_NET, Exchange(pre, m, later, mid, f, more, registeredFirst))
    ensures Arrives(RunFrom(EMPTY_NET, Exchange(pre, m, later, mid, f, more, registeredFirst)), f, Answered(m))
            <==> registeredFirst
  {
    if registeredFirst {
      ReplyIsNotLost(pre, m.request, f, mid, m, later, more);
    } else {
      EarlyReplyIsLost(pre, m, later, mid, f, more);
    }
  }

  // ---------- Every way to settle does settle ----------

  lemma FailAllArrives(n: Net, error: string, remote: set<FutureId>, r: RequestId, f: FutureId)
    requires Waits(n, r, f) && TableInv(n) && ScheduleInv(n)
    ensures var t := FailAll(n, error, remote);
            && Arrives(t, f, Failed(error)) && f in t.origin && !InTable(t, f)
            && (f !in remote ==> t.futures[f] == Failed(error))
  {
    assert f in n.pending.Values;
  }

  lemma {:induction false} FailingRun(steps: seq<NetStep>, error: string, remote: set<FutureId>, r: RequestId,
                                      f: FutureId)
    requires NewFutures(EMPTY_NET, steps) && Waits(RunFrom(EMPTY_NET, steps), r, f)
    ensures var failing := steps + [FailAllStep(error, remote)];
            var n := RunFrom(EMPTY_NET, failing);
            && NetInv(n, Received(failing)) && Arrives(n, f, Failed(error)) && f in n.origin && !InTable(n, f)
            && (f !in remote ==> Has(n, f, Failed(error)))
  {
    RunFromStep(EMPTY_NET, steps, FailAllStep(error, remote));
    RunKeepsNet(steps);
    RunKeepsNet(steps + [FailAllStep(error, remote)]);
    FailAllArrives(RunFrom(EMPTY_NET, steps), error, remote, r, f);
  }

  /** In every run, emptying the table fails each waiting future in it: at once,
      or, if it lives on another loop, when that loop runs, unless it times out
      before. */
  lemma {:induction false} FailureArrives(steps: seq<NetStep>, error: string, remote: set<FutureId>, r: RequestId,
                                          f: FutureId, more: seq<NetStep>)
    requires NewFutures(EMPTY_NET, steps + [FailAllStep(error, remote)] + more) && NoTimeOut(more, f)
    requires Waits(RunFrom(EMPTY_NET, steps), r, f)
    ensures var n := RunFrom(EMPTY_NET, steps + [FailAllStep(error, remote)] + more);
            Arrives(n, f, Failed(error)) && (f !in remote ==> Has(n, f, Failed(error)))
  {
    var failing := steps + [FailAllStep(error, remote)];
    NewFuturesAppend(EMPTY_NET, failing, more);
    RunFromStep(EMPTY_NET, steps, FailAllStep(error, remote));
    RunFromAppend(EMPTY_NET, failing, more);
    FailingRun(steps, error, remote, r, f);
    FailurePersists(RunFrom(EMPTY_NET, failing), Received(failing), more, f, error);
  }

  lemma FailurePersists(n: Net, received: set<Message>, more: seq<NetStep>, f: FutureId, error: string)
    requires NetInv(n, received) && NewFutures(n, more) && NoTimeOut(more, f)
    requires Arrives(n, f, Failed(error)) && f in n.origin && !InTable(n, f)
    ensures Arrives(RunFrom(n, more), f, Failed(error))
    ensures Has(n, f, Failed(error)) ==> Has(RunFrom(n, more), f, Failed(error))
  {
    var _ := ArrivalPersists(n, received, more, f, Failed(error));
    if Has(n, f, Failed(error)) {
      SettledNeverChanges(n, more, f);
    }
  }

  predicate Has(n: Net, f: FutureId, o: Outcome) {
    f in n.futures && n.futures[f] == o
  }

  /** An outcome on its way has arrived once its loop has run it. */
  lemma ArrivalCompletes(n: Net, f: FutureId, o: Outcome)
    requires Arrives(n, f, o) && o != Waiting
    ensures Next(n, DeliverStep(f, o)).futures[f] == o
  {
  }

  /** A wait that times out has cancelled its future for good. */
  lemma TimeOutCancels(n: Net, f: FutureId, more: seq<NetStep>)
    requires f in n.futures && n.futures[f] == Waiting && NewFutures(Next(n, TimeOutStep(f)), more)
    ensures f in RunFrom(Next(n, TimeOutStep(f)), more).futures
    ensures RunFrom(Next(n, TimeOutStep(f)), more).futures[f] == Cancelled
  {
    SettledNeverChanges(Next(n, TimeOutStep(f)), more, f);
  }

  // ---------- How long an entry stays ----------

  ghost predicate Holds(n: Net, r: RequestId, f: FutureId) {
    r in n.pending && n.pending[r] == f
  }

  /** The step neither removes nor replaces an entry for `r`. */
  predicate LeavesEntry(step: NetStep, r: RequestId) {
    match step
    case RegisterStep(q, _) => q != r
    case RespondStep(m, _) => m.request != r
    case ClearStep(q) => q != r
    case FailAllStep(_, _) => false
    case _ => true
  }

  lemma EntryStepIff(n: Net, step: NetStep, r: RequestId, f: FutureId)
    requires Allowed(n, step) && f in n.futures
    ensures Holds(Next(n, step), r, f) <==> Holds(n, r, f) && LeavesEntry(step, r)
    ensures f in Next(n, step).futures
  {
  }

  /** An entry, its future settled or not, stays in the table exactly as long as
      no response, clear or disconnect takes it and no registration under the
      same id replaces it; a timeout alone does not remove it. */
  lemma {:induction false} EntryStaysIff(n: Net, r: RequestId, f: FutureId, more: seq<NetStep>)
    requires NewFutures(n, more) && f in n.futures && Holds(n, r, f)
    ensures f in RunFrom(n, more).futures
    ensures Holds(RunFrom(n, more), r, f) <==> forall k :: 0 <= k < |more| ==> LeavesEntry(more[k], r)
  {
    if more != [] {
      var front := more[..|more| - 1];
      assert forall k :: 0 <= k < |front| ==> front[k] == more[k];
      EntryStaysIff(n, r, f, front);
      EntryStepIff(RunFrom(n, front), more[|more| - 1], r, f);
    }
  }

  // ---------- Requests registered again ----------

  ghost function CreatedFor(n: Net, r: RequestId): set<FutureId> {
    set f | f in n.origin && n.origin[f] == r
  }

  ghost function DepartedFor(n: Net, r: RequestId): set<FutureId> {
    set f | f in n.departed && f in n.origin && n.origin[f] == r
  }

  /** A request id leaves the table as often as it was registered, less once if
      it is there now. */
  lemma DeparturesOfRequest(steps: seq<NetStep>, r: RequestId)
    requires NewFutures(EMPTY_NET, steps)
    ensures var n := RunFrom(EMPTY_NET, steps);
            |DepartedFor(n, r)| == |CreatedFor(n, r)| - (if r in n.pending then 1 else 0)
  {
    var n := RunFrom(EMPTY_NET, steps);
    RunKeepsNet(steps);
    forall f ensures f in n.departed <==> f in n.origin && !InTable(n, f) {
      assert n.departed[f] == if f in n.origin && !InTable(n, f) then 1 else 0;
    }
    assert DepartedFor(n, r) == CreatedFor(n, r) - (if r in n.pending then {n.pending[r]} else {});
  }

  lemma RunFromStep(n: Net, steps: seq<NetStep>, step: NetStep)
    ensures RunFrom(n, steps + [step]) == Next(RunFrom(n, steps), step)
    ensures NewFutures(n, steps + [step]) <==> NewFutures(n, steps) && Allowed(RunFrom(n, steps), step)
  {
    assert (steps + [step])[..|steps|] == steps;
  }

  /** A request sent again after its answer, as a join that first had to create
      its channel, leaves the table twice. */
  lemma RetriedRequestLeavesTwice(r: RequestId, refusal: string, answer: string) returns (steps: seq<NetStep>)
    ensures NewFutures(EMPTY_NET, steps) && DepartedFor(RunFrom(EMPTY_NET, steps), r) == {0, 1}
    ensures RunFrom(EMPTY_NET, steps).futures
            == map[0 := Answered(Message(r, refusal)), 1 := Answered(Message(r, answer))]
  {
    var refused, answered := Message(r, refusal), Message(r, answer);
    steps := [] + [RegisterStep(r, 0)] + [RespondStep(refused, false)] + [RegisterStep(r, 1)]
             + [RespondStep(answered, false)];
    RunFromStep(EMPTY_NET, [], RegisterStep(r, 0));
    RunFromStep(EMPTY_NET, [] + [RegisterStep(r, 0)], RespondStep(refused, false));
    RunFromStep(EMPTY_NET, [] + [RegisterStep(r, 0)] + [RespondStep(refused, false)], RegisterStep(r, 1));
    RunFromStep(EMPTY_NET, [] + [RegisterStep(r, 0)] + [RespondStep(refused, false)] + [RegisterStep(r, 1)],
                RespondStep(answered, false));
  }
}
