/** The bridge client: callers that send requests and wait, the receive loop
    that answers them, the run loop that resets everything when a connection or
    an attempt at one ends, and `stop`; their steps interleave at every point
    where the code gives up control. */
module BridgeSession {
  import opened Basics
  import opened Correlation

  const AGENT_DISCONNECTED: string := "AgentDisconnected"

  /** Where a call of `send_agent_request` stands: past the connection check;
      in the table; sending; waiting; done waiting but still in the table;
      or returned. */
  datatype Call =
    | Checked(future: FutureId)
    | Enrolled(future: FutureId)
    | Sending(future: FutureId)
    | Awaiting(future: FutureId)
    | Ended(future: FutureId)
    | Returned(future: FutureId)

  /** Where the run loop stands: without a connection; connected; names reset;
      socket dropped. */
  datatype LoopPhase = Down | Up | Resetting | Closed

  datatype Session = Session(
    net: Net,
    calls: map<RequestId, Call>,
    loop: LoopPhase,
    connected: bool,
    receiving: bool,
    name: Option<string>,
    agents: seq<string>)

  const START: Session := Session(EMPTY_NET, map[], Down, false, false, None, [])

  datatype Move =
    | Connect
    | StartReceiving
    | StopReceiving
    | AgentsUpdate(addAgent: Option<string>, allAgents: seq<string>)
    | Response(message: Message)
    | BeginCleanup
    | DropSocket
    | FailPending
    | FailedAttempt
    | StopSocket
    | BeginCall(request: RequestId, newFuture: FutureId)
    | Enroll(request: RequestId)
    | StartSend(request: RequestId)
    | FinishSend(request: RequestId, sent: bool)
    | GiveUp(request: RequestId)
    | Wake(request: RequestId)
    | Finish(request: RequestId)

  predicate InUse(s: Session, f: FutureId) {
    f in s.net.futures || exists r :: r in s.calls && s.calls[r].future == f
  }

  /** A cleanup also follows an attempt that never gets a socket. `stop` cancels
      the receive loop, drops the socket itself and, once the run loop has ended
      or was cut short in its cleanup, empties the table (again). */
  function RunLoopMove(s: Session, m: Move): Session {
    match m
    case Connect => if s.loop == Down then s.(loop := Up, connected := true) else s
    case StartReceiving => if s.loop == Up then s.(receiving := true) else s
    case StopReceiving => s.(receiving := false)
    case AgentsUpdate(addAgent, allAgents) =>
      if !s.receiving then s
      else s.(name := if addAgent.Some? && addAgent.value != "" then addAgent else s.name, agents := allAgents)
    case Response(message) => if s.receiving then s.(net := Respond(s.net, message, false)) else s
    case BeginCleanup =>
      if s.loop == Up then s.(loop := Resetting, name := None, agents := []) else s
    case DropSocket => if s.loop == Resetting then s.(loop := Closed, connected := false) else s
    case FailPending =>
      if s.loop == Closed || s.loop == Down
      then s.(loop := Down, net := FailAll(s.net, AGENT_DISCONNECTED, {})) else s
    case FailedAttempt =>
      if s.loop == Down then s.(loop := Closed, connected := false, name := None, agents := []) else s
    case StopSocket => s.(connected := false)
    case _ => s
  }

  /** Without a connection a call raises at once. */
  function CallMove(s: Session, m: Move): Session {
    match m
    case BeginCall(r, f) =>
      if s.connected && r !in s.calls && !InUse(s, f) then s.(calls := s.calls[r := Checked(f)]) else s
    case Enroll(r) =>
      if r in s.calls && s.calls[r].Checked?
      then s.(net := Register(s.net, r, s.calls[r].future), calls := s.calls[r := Enrolled(s.calls[r].future)]) else s
    case StartSend(r) =>
      if r in s.calls && s.calls[r].Enrolled?
      then s.(calls := s.calls[r := if s.connected then Sending(s.calls[r].future) else Returned(s.calls[r].future)])
      else s
    case FinishSend(r, sent) =>
      if r in s.calls && s.calls[r].Sending?
      then s.(calls := s.calls[r := if sent then Awaiting(s.calls[r].future) else Returned(s.calls[r].future)]) else s
    case GiveUp(r) =>
      if r in s.calls && s.calls[r].Awaiting?
      then s.(net := TimeOut(s.net, s.calls[r].future), calls := s.calls[r := Ended(s.calls[r].future)]) else s
    case Wake(r) =>
      if r in s.calls && s.calls[r].Awaiting? && s.calls[r].future in s.net.futures
         && s.net.futures[s.calls[r].future] != Waiting
      then s.(calls := s.calls[r := Ended(s.calls[r].future)]) else s
    case Finish(r) =>
      if r in s.calls && s.calls[r].Ended?
      then s.(net := Depart(s.net, r), calls := s.calls[r := Returned(s.calls[r].future)]) else s
    case _ => s
  }

  predicate IsCallMove(m: Move) {
    m.BeginCall? || m.Enroll? || m.StartSend? || m.FinishSend? || m.GiveUp? || m.Wake? || m.Finish?
  }

  function Advance(s: Session, m: Move): Session {
    if IsCallMove(m) then CallMove(s, m) else RunLoopMove(s, m)
  }

  function RunOn(s: Session, ms: seq<Move>): Session {
    if ms == [] then s else Advance(RunOn(s, ms[..|ms| - 1]), ms[|ms| - 1])
  }

  function RunSession(ms: seq<Move>): Session {
    RunOn(START, ms)
  }

  lemma {:induction false} RunOnAppend(s: Session, a: seq<Move>, b: seq<Move>)
    ensures RunOn(s, a + b) == RunOn(RunOn(s, a), b)
  {
    if b == [] {
      assert a + b == a;
    } else {
      assert (a + b)[..|a + b| - 1] == a + b[..|b| - 1];
      RunOnAppend(s, a, b[..|b| - 1]);
    }
  }

  // ---------- What every interleaving keeps ----------

  /** A call that is in the table's care. */
  predicate Active(c: Call) {
    c.Enrolled? || c.Sending? || c.Awaiting?
  }

  predicate StillWaits(s: Session, f: FutureId) {
    f in s.net.futures && s.net.futures[f] == Waiting
  }

  /** Every active call's future exists, and while it waits the table leads to
      it: whatever ends the wait can find it. */
  ghost predicate Reachable(s: Session) {
    forall r :: r in s.calls && Active(s.calls[r])
                ==> && s.calls[r].future in s.net.futures
                    && (StillWaits(s, s.calls[r].future) ==> r in s.net.pending)
  }

  /** No two calls share a future. */
  ghost predicate OwnFutures(calls: map<RequestId, Call>) {
    forall r, q :: r in calls && q in calls && calls[r].future == calls[q].future ==> r == q
  }

  lemma OwnFuturesUpdate(calls: map<RequestId, Call>, r: RequestId, c: Call)
    requires OwnFutures(calls)
    requires if r in calls then calls[r].future == c.future else forall q :: q in calls ==> calls[q].future != c.future
    ensures OwnFutures(calls[r := c])
  {
  }

  /** The table and the calls agree. */
  ghost predicate Matched(s: Session) {
    && (forall r :: r in s.net.pending ==>
          r in s.calls && !s.calls[r].Checked? && s.net.pending[r] == s.calls[r].future)
    && OwnFutures(s.calls)
    && (forall r :: r in s.calls && s.calls[r].Checked? ==> s.calls[r].future !in s.net.futures)
  }

  /** How a future may have ended: its own answer, a timeout or a disconnect. */
  predicate ProperEnd(r: RequestId, o: Outcome) {
    match o
    case Waiting => true
    case Answered(m) => m.request == r
    case Failed(e) => e == AGENT_DISCONNECTED
    case Cancelled => true
  }

  ghost predicate ProperEnds(s: Session) {
    forall r :: r in s.calls && s.calls[r].future in s.net.futures ==> ProperEnd(r, s.net.futures[s.calls[r].future])
  }

  /** Without a connection nobody who sends or waits is kept waiting. */
  ghost predicate NobodyWaits(s: Session) {
    s.loop == Down ==>
      forall r :: r in s.calls && (s.calls[r].Sending? || s.calls[r].Awaiting?) ==> !StillWaits(s, s.calls[r].future)
  }

  /** The names are reset. */
  predicate Anonymous(s: Session) {
    s.name == None && s.agents == []
  }

  ghost predicate LoopInv(s: Session) {
    s.connected ==> s.loop == Up || s.loop == Resetting
  }

  /** A future in the table waits, but for a call that is done waiting. */
  ghost predicate EntriesWait(s: Session) {
    forall r :: r in s.net.pending && r in s.calls && !s.calls[r].Ended? ==> StillWaits(s, s.calls[r].future)
  }

  ghost predicate SessionInv(s: Session) {
    Reachable(s) && Matched(s) && EntriesWait(s) && ProperEnds(s) && NobodyWaits(s) && LoopInv(s)
  }

  /** What a response does: its entry goes and its future is settled. */
  lemma ResponseEffect(s: Session, m: Message)
    requires Matched(s)
    ensures var t := Respond(s.net, m, false);
            && t.pending == s.net.pending - {m.request}
            && t.futures.Keys == s.net.futures.Keys
            && forall r :: r in s.calls && s.calls[r].future in s.net.futures && (r != m.request || r !in s.net.pending)
                           ==> t.futures[s.calls[r].future] == s.net.futures[s.calls[r].future]
  {
    if m.request !in s.net.pending {
      assert s.net.pending - {m.request} == s.net.pending;
    }
  }

  lemma ResponseKeepsInv(s: Session, m: Message)
    requires SessionInv(s)
    ensures SessionInv(s.(net := Respond(s.net, m, false)))
  {
    var t := s.(net := Respond(s.net, m, false));
    ResponseEffect(s, m);
    assert Matched(t) && EntriesWait(t) && LoopInv(t);
    assert Reachable(t);
  }

  lemma FailPendingKeepsInv(s: Session)
    requires SessionInv(s) && (s.loop == Closed || s.loop == Down)
    ensures var t := RunLoopMove(s, FailPending);
            && SessionInv(t) && t.net.pending == map[]
            && forall r :: r in t.calls && Active(t.calls[r]) ==> !StillWaits(t, t.calls[r].future)
  {
    var t := RunLoopMove(s, FailPending);
    assert t.net.futures.Keys == s.net.futures.Keys;
    forall r | r in s.calls && Active(s.calls[r]) ensures !StillWaits(t, s.calls[r].future) {
      if StillWaits(s, s.calls[r].future) {
        assert s.net.pending[r] in s.net.pending.Values;
      }
    }
    assert Matched(t);
  }

  lemma RunLoopKeepsInv(s: Session, m: Move)
    requires SessionInv(s) && !IsCallMove(m)
    ensures SessionInv(RunLoopMove(s, m))
  {
    if m.Response? {
      if s.receiving {
        ResponseKeepsInv(s, m.message);
      }
    } else if m.FailPending? {
      if s.loop == Closed || s.loop == Down {
        FailPendingKeepsInv(s);
      }
    } else {
      var t := RunLoopMove(s, m);
      assert t.net == s.net && t.calls == s.calls;
      assert t.loop == Down ==> s.loop == Down;
    }
  }

  lemma EnrollKeepsInv(s: Session, r: RequestId)
    requires SessionInv(s) && r in s.calls && s.calls[r].Checked?
    ensures SessionInv(CallMove(s, Enroll(r)))
  {
    var f := s.calls[r].future;
    OwnFuturesUpdate(s.calls, r, Enrolled(f));
    assert CallMove(s, Enroll(r)).net.futures == s.net.futures[f := Waiting];
  }

  lemma FinishKeepsInv(s: Session, r: RequestId)
    requires SessionInv(s) && r in s.calls && s.calls[r].Ended?
    ensures SessionInv(CallMove(s, Finish(r)))
  {
    OwnFuturesUpdate(s.calls, r, Returned(s.calls[r].future));
  }

  lemma GiveUpKeepsInv(s: Session, r: RequestId)
    requires SessionInv(s) && r in s.calls && s.calls[r].Awaiting?
    ensures SessionInv(CallMove(s, GiveUp(r)))
  {
    var t := CallMove(s, GiveUp(r));
    assert t.net.pending == s.net.pending && t.net.futures.Keys == s.net.futures.Keys;
    forall q | q in s.calls && q != r ensures StillWaits(t, s.calls[q].future) == StillWaits(s, s.calls[q].future) {
      assert s.calls[q].future != s.calls[r].future;
    }
    OwnFuturesUpdate(s.calls, r, t.calls[r]);
  }

  /** A call that moves on within its own steps, the table untouched. */
  lemma AdvanceKeepsInv(s: Session, r: RequestId, c: Call)
    requires SessionInv(s) && r in s.calls && c.future == s.calls[r].future && !c.Checked? && !s.calls[r].Checked?
    requires Active(c) ==> Active(s.calls[r])
    requires (c.Sending? || c.Awaiting?) && s.loop == Down ==> !StillWaits(s, c.future)
    requires s.calls[r].Ended? ==> c.Ended?
    ensures SessionInv(s.(calls := s.calls[r := c]))
  {
    OwnFuturesUpdate(s.calls, r, c);
  }

  lemma BeginKeepsInv(s: Session, r: RequestId, f: FutureId)
    requires SessionInv(s) && r !in s.calls && !InUse(s, f)
    ensures SessionInv(s.(calls := s.calls[r := Checked(f)]))
  {
    OwnFuturesUpdate(s.calls, r, Checked(f));
    assert r !in s.net.pending;
  }

  lemma CallKeepsInv(s: Session, m: Move)
    requires SessionInv(s) && IsCallMove(m)
    ensures SessionInv(CallMove(s, m))
  {
    if CallMove(s, m) != s {
      match m
      case Enroll(r) => EnrollKeepsInv(s, r);
      case Finish(r) => FinishKeepsInv(s, r);
      case GiveUp(r) => GiveUpKeepsInv(s, r);
      case BeginCall(r, f) => BeginKeepsInv(s, r, f);
      case StartSend(r) => AdvanceKeepsInv(s, r, CallMove(s, m).calls[r]);
      case FinishSend(r, _) => AdvanceKeepsInv(s, r, CallMove(s, m).calls[r]);
      case Wake(r) => AdvanceKeepsInv(s, r, CallMove(s, m).calls[r]);
    }
  }

  lemma {:induction false} RunKeepsSession(ms: seq<Move>)
    ensures SessionInv(RunSession(ms))
  {
    if ms != [] {
      var s := RunSession(ms[..|ms| - 1]);
      var m := ms[|ms| - 1];
      RunKeepsSession(ms[..|ms| - 1]);
      if IsCallMove(m) {
        CallKeepsInv(s, m);
      } else {
        RunLoopKeepsInv(s, m);
      }
    }
  }

  /** In every interleaving, once a disconnect has been processed nobody who is
      sending or waiting is kept waiting, however many connections come and go,
      and each finished wait ended by its own answer, a timeout or the
      disconnect. */
  lemma NoWaitAcrossDisconnect(ms: seq<Move>, r: RequestId)
    requires RunSession(ms).loop == Down
    requires r in RunSession(ms).calls && (RunSession(ms).calls[r].Sending? || RunSession(ms).calls[r].Awaiting?)
    ensures var s := RunSession(ms);
            var f := s.calls[r].future;
            && f in s.net.futures && s.net.futures[f] != Waiting && ProperEnd(r, s.net.futures[f])
  {
    RunKeepsSession(ms);
  }

  /** While a call waits on a connection, its table entry is there for the
      response or the disconnect to find. */
  lemma WaiterIsInTable(ms: seq<Move>, r: RequestId)
    requires r in RunSession(ms).calls && Active(RunSession(ms).calls[r])
    requires StillWaits(RunSession(ms), RunSession(ms).calls[r].future)
    ensures r in RunSession(ms).net.pending && RunSession(ms).net.pending[r] == RunSession(ms).calls[r].future
  {
    RunKeepsSession(ms);
  }

  /** When a cleanup finishes, after a connection or after a failed attempt at
      one: the table is empty, the socket is gone, and every
      request registered before is settled, whether or not it was sent. */
  lemma CleanupSettlesAll(ms: seq<Move>)
    requires RunSession(ms).loop == Closed
    ensures var s := RunSession(ms + [FailPending]);
            && s.loop == Down && s.net.pending == map[] && !s.connected
            && forall r :: r in s.calls && Active(s.calls[r]) ==> !StillWaits(s, s.calls[r].future)
  {
    RunKeepsSession(ms);
    assert (ms + [FailPending])[..|ms|] == ms;
    FailPendingKeepsInv(RunSession(ms));
    RunKeepsSession(ms + [FailPending]);
  }

  // ---------- When a cleanup leaves the names reset ----------

  /** A schedule of a cleanup: whatever else moves, no new connection starts. */
  predicate OneCleanup(ms: seq<Move>) {
    forall k :: 0 <= k < |ms| ==> ms[k] != Connect
  }

  lemma QuietMove(s: Session, m: Move)
    requires s.loop != Up && !s.receiving && Anonymous(s) && m != Connect
    ensures var t := Advance(s, m); t.loop != Up && !t.receiving && Anonymous(t)
  {
  }

  lemma {:induction false} QuietCleanup(s: Session, ms: seq<Move>)
    requires s.loop != Up && !s.receiving && Anonymous(s) && OneCleanup(ms)
    ensures var t := RunOn(s, ms); t.loop != Up && !t.receiving && Anonymous(t)
  {
    if ms != [] {
      var front := ms[..|ms| - 1];
      assert OneCleanup(front) by {
        assert forall k :: 0 <= k < |front| ==> front[k] == ms[k];
      }
      QuietCleanup(s, front);
      QuietMove(RunOn(s, front), ms[|ms| - 1]);
    }
  }

  /** The rest of a cleanup, with an update in between. */
  function LateUpdate(name: string, agents: seq<string>): seq<Move> {
    [AgentsUpdate(Some(name), agents), DropSocket, FailPending]
  }

  lemma ThreeMoves(s: Session, a: Move, b: Move, c: Move)
    ensures RunOn(s, [a, b, c]) == Advance(Advance(Advance(s, a), b), c)
  {
    assert [a, b, c][..2] == [a, b] && [a, b][..1] == [a] && [a][..0] == [];
    assert RunOn(s, [a]) == Advance(s, a);
    assert RunOn(s, [a, b]) == Advance(Advance(s, a), b);
  }

  /** A cleanup that starts while the receive loop still runs, as after a
      handshake that timed out, can let an update through: the names it resets
      come back before it ends. */
  lemma LateUpdateSurvivesCleanup(s: Session, name: string, agents: seq<string>)
    requires s.loop == Up && s.receiving && name != ""
    ensures var t := RunOn(Advance(s, BeginCleanup), LateUpdate(name, agents));
            t.loop == Down && t.name == Some(name) && t.agents == agents
  {
    ThreeMoves(Advance(s, BeginCleanup), AgentsUpdate(Some(name), agents), DropSocket, FailPending);
  }

  /** Whatever the schedule, a cleanup that has ended has left name and agents
      reset, exactly if the receive loop had ended when it began. */
  lemma CleanupResetsIff(s: Session)
    requires s.loop == Up
    ensures (forall ms :: OneCleanup(ms) && RunOn(Advance(s, BeginCleanup), ms).loop == Down
                          ==> Anonymous(RunOn(Advance(s, BeginCleanup), ms)))
            <==> !s.receiving
  {
    var t := Advance(s, BeginCleanup);
    if s.receiving {
      LateUpdateSurvivesCleanup(s, "n", []);
      assert OneCleanup(LateUpdate("n", [])) && !Anonymous(RunOn(t, LateUpdate("n", [])));
    } else {
      forall ms | OneCleanup(ms) ensures Anonymous(RunOn(t, ms)) {
        QuietCleanup(t, ms);
      }
    }
  }

  /** Both cases occur: a connection can be lost before its receive loop starts
      and while it runs. */
  lemma BothCleanupsOccur()
    ensures var s := RunSession([Connect, StartReceiving]); s.loop == Up && s.receiving
    ensures var s := RunSession([Connect]); s.loop == Up && !s.receiving
  {
    assert [Connect, StartReceiving][..1] == [Connect] && [Connect][..0] == [];
  }

  // ---------- The assigned name ----------

  predicate Names(s: Session, m: Move) {
    s.receiving && m.AgentsUpdate? && m.addAgent.Some? && m.addAgent.value != ""
  }

  predicate Resets(s: Session, m: Move) {
    (s.loop == Up && m == BeginCleanup) || (s.loop == Down && m == FailedAttempt)
  }

  lemma NameMove(s: Session, m: Move)
    requires Advance(s, m).name.Some?
    ensures if Names(s, m) then m.addAgent == Advance(s, m).name else !Resets(s, m) && Advance(s, m).name == s.name
  {
  }

  /** In every run: a name is never empty, was given by an update that the
      receive loop took, and nothing has renamed or reset the agent since. */
  lemma {:induction false} NameIsLatest(ms: seq<Move>) returns (k: nat)
    requires RunSession(ms).name.Some?
    ensures k < |ms| && Names(RunSession(ms[..k]), ms[k]) && ms[k].addAgent == RunSession(ms).name
    ensures forall j :: k < j < |ms| ==> !Names(RunSession(ms[..j]), ms[j]) && !Resets(RunSession(ms[..j]), ms[j])
  {
    var front := ms[..|ms| - 1];
    var s := RunSession(front);
    var m := ms[|ms| - 1];
    NameMove(s, m);
    if Names(s, m) {
      k := |ms| - 1;
    } else {
      k := NameIsLatest(front);
      forall j | k < j < |ms| ensures !Names(RunSession(ms[..j]), ms[j]) && !Resets(RunSession(ms[..j]), ms[j]) {
        assert j < |front| ==> front[..j] == ms[..j] && front[j] == ms[j];
      }
      assert front[..k] == ms[..k];
    }
  }

  // ---------- Entries left behind ----------

  /** A call that returns leaves its entry in the table exactly if it returns
      because its send failed, or found no socket, while its future waited: the
      entry is only removed around the wait. */
  lemma LeftBehindIff(ms: seq<Move>, m: Move, r: RequestId)
    requires r in RunSession(ms).calls && !RunSession(ms).calls[r].Returned?
    requires Advance(RunSession(ms), m).calls[r].Returned?
    ensures r in Advance(RunSession(ms), m).net.pending
            <==> m != Finish(r) && StillWaits(RunSession(ms), RunSession(ms).calls[r].future)
  {
    RunKeepsSession(ms);
  }

  /** The move takes the entry for `r` out of the table. */
  predicate Removes(s: Session, m: Move, r: RequestId) {
    || (m.Response? && m.message.request == r && s.receiving)
    || (m == FailPending && (s.loop == Closed || s.loop == Down))
  }

  predicate NeverRemoved(s: Session, ms: seq<Move>, r: RequestId) {
    forall k :: 0 <= k < |ms| ==> !Removes(RunOn(s, ms[..k]), ms[k], r)
  }

  lemma NeverRemovedStep(s: Session, ms: seq<Move>, r: RequestId)
    requires ms != []
    ensures NeverRemoved(s, ms, r)
            <==> NeverRemoved(s, ms[..|ms| - 1], r) && !Removes(RunOn(s, ms[..|ms| - 1]), ms[|ms| - 1], r)
  {
    var front := ms[..|ms| - 1];
    assert forall k :: 0 <= k <= |front| ==> front[..k] == ms[..k];
  }

  lemma LeftBehindCall(s: Session, m: Move, r: RequestId)
    requires r in s.calls && s.calls[r].Returned? && IsCallMove(m)
    ensures var t := CallMove(s, m);
            && r in t.calls && t.calls[r].Returned?
            && (r in t.net.pending <==> r in s.net.pending)
  {
    if CallMove(s, m) != s {
      assert m.request != r;
      if m.Enroll? {
        assert CallMove(s, m).net == Register(s.net, m.request, s.calls[m.request].future);
      } else if m.Finish? {
        assert CallMove(s, m).net == Depart(s.net, m.request);
      } else if m.GiveUp? {
        assert CallMove(s, m).net == TimeOut(s.net, s.calls[m.request].future);
      } else {
        assert CallMove(s, m).net == s.net;
      }
    }
  }

  lemma LeftBehindMove(s: Session, m: Move, r: RequestId)
    requires r in s.calls && s.calls[r].Returned?
    ensures var t := Advance(s, m);
            && r in t.calls && t.calls[r].Returned?
            && (r in t.net.pending <==> r in s.net.pending && !Removes(s, m, r))
  {
    if IsCallMove(m) {
      LeftBehindCall(s, m, r);
    } else {
      assert RunLoopMove(s, m).calls == s.calls;
      if m.Response? && s.receiving {
        assert RunLoopMove(s, m).net == Respond(s.net, m.message, false);
      } else if m.FailPending? && (s.loop == Closed || s.loop == Down) {
        assert RunLoopMove(s, m).net.pending == map[];
      } else {
        assert RunLoopMove(s, m).net == s.net;
      }
    }
  }

  /** An entry left behind stays exactly until a response to it is received, or
      the table is emptied: by a disconnect, by a failed attempt to connect, or
      by `stop`. */
  lemma {:induction false} LeftBehindUntil(s: Session, r: RequestId, more: seq<Move>)
    requires r in s.calls && s.calls[r].Returned? && r in s.net.pending
    ensures var t := RunOn(s, more);
            && r in t.calls && t.calls[r].Returned?
            && (r in t.net.pending <==> NeverRemoved(s, more, r))
  {
    if more != [] {
      LeftBehindUntil(s, r, more[..|more| - 1]);
      LeftBehindMove(RunOn(s, more[..|more| - 1]), more[|more| - 1], r);
      NeverRemovedStep(s, more, r);
    }
  }

  // ---------- The client object ----------

  class BridgeClient {
    const table: PendingTable
    var connected: bool
    var assignedName: Option<string>
    var connectedAgents: seq<string>

    /** The object holds what the session says; where callers and loops stand is
        control, not data. Each method below carries this over its moves. */
    ghost predicate Shows(s: Session)
      reads this, table
    {
      table.View() == s.net && connected == s.connected && assignedName == s.name && connectedAgents == s.agents
    }

    constructor ()
      ensures fresh(table) && Shows(START)
    {
      table := new PendingTable();
      connected, assignedName, connectedAgents := false, None, [];
    }

    /** A socket is there: `_connect_and_handshake` once a port has answered. */
    method OpenSocket(ghost s: Session)
      requires Shows(s) && s.loop == Down
      modifies this
      ensures Shows(Advance(s, Connect))
    {
      connected := true;
    }

    /** `connectedAgentsUpdate`: a newly connected agent learns its name. */
    method HandleAgentsUpdate(addAgent: Option<string>, allAgents: seq<string>, ghost s: Session)
      requires Shows(s) && s.receiving
      modifies this
      ensures Shows(Advance(s, AgentsUpdate(addAgent, allAgents)))
    {
      if addAgent.Some? && addAgent.value != "" {
        assignedName := addAgent;
      }
      connectedAgents := allAgents;
    }

    /** The start of `send_agent_request`: the connection check and the
        registration of a new request. */
    method BeginRequest(r: RequestId, created: FutureId, ghost s: Session) returns (registered: bool)
      requires Shows(s) && r !in s.calls && !InUse(s, created)
      modifies table
      ensures registered <==> connected
      ensures table.View() == if connected then Register(old(table.View()), r, created) else old(table.View())
      ensures Shows(Advance(Advance(s, BeginCall(r, created)), Enroll(r)))
    {
      if !connected {
        return false;
      }
      table.RegisterPendingResponse(r, created);
      return true;
    }

    /** The wait times out and cancels its future. */
    method GiveUpRequest(r: RequestId, f: FutureId, ghost s: Session)
      requires Shows(s) && r in s.calls && s.calls[r] == Awaiting(f)
      modifies table
      ensures Shows(Advance(s, GiveUp(r)))
    {
      table.SettleFuture(f, Cancelled, false);
    }

    /** The end of `send_agent_request`: the entry is removed, if it is there. */
    method FinishRequest(r: RequestId, ghost s: Session)
      requires Shows(s) && r in s.calls && s.calls[r].Ended?
      modifies table
      ensures Shows(Advance(s, Finish(r)))
    {
      table.ClearPending(r);
    }

    /** The response branch of the receive loop: both ids must be present. */
    method HandleResponse(requestUuid: RequestId, responseUuid: string, body: string, ghost s: Session)
      returns (handled: bool)
      requires Shows(s) && s.receiving
      modifies table
      ensures handled <==> requestUuid != "" && responseUuid != ""
      ensures table.View()
              == if handled then Respond(old(table.View()), Message(requestUuid, body), false) else old(table.View())
      ensures Shows(if handled then Advance(s, Response(Message(requestUuid, body))) else s)
    {
      if requestUuid == "" || responseUuid == "" {
        return false;
      }
      table.ResolvePending(Message(requestUuid, body), false);
      return true;
    }

    /** `_fail_all_pending`. */
    method FailAllPending(ghost s: Session)
      requires Shows(s) && (s.loop == Closed || s.loop == Down)
      modifies table
      ensures Shows(Advance(s, FailPending))
      ensures table.View() == FailAll(old(table.View()), AGENT_DISCONNECTED, {})
    {
      table.FailAllPending(AGENT_DISCONNECTED, {});
    }

    /** The first half of the cleanup: names reset, socket dropped. */
    method ResetState(ghost s: Session)
      requires Shows(s) && (s.loop == Up || s.loop == Down)
      modifies this
      ensures Shows(Reset(s)) && !connected && assignedName == None && connectedAgents == []
    {
      assignedName := None;
      connectedAgents := [];
      connected := false;
    }

    /** The run loop's cleanup, after a connection or after an attempt that
        failed, when nothing else runs in between. */
    method CleanUp(ghost s: Session)
      requires Shows(s) && (s.loop == Up || s.loop == Down)
      modifies this, table
      ensures !connected && assignedName == None && connectedAgents == []
      ensures table.View() == FailAll(old(table.View()), AGENT_DISCONNECTED, {})
      ensures table.pending == map[]
      ensures forall f :: f in old(table.pending).Values && f in table.futures ==> table.futures[f] != Waiting
      ensures Shows(Advance(Reset(s), FailPending))
    {
      FailAllSettles(s.net);
      ResetState(s);
      FailAllPending(Reset(s));
      assert table.pending == table.View().pending && table.futures == table.View().futures;
    }
  }

  lemma FailAllSettles(n: Net)
    ensures var t := FailAll(n, AGENT_DISCONNECTED, {});
            t.pending == map[] && forall f :: f in n.pending.Values && f in t.futures ==> t.futures[f] != Waiting
  {
  }

  /** The moves of a cleanup before it empties the table. */
  ghost function Reset(s: Session): Session {
    if s.loop == Up then Advance(Advance(s, BeginCleanup), DropSocket) else Advance(s, FailedAttempt)
  }
}
