/** What a call over the bridge gets: its answer, a timeout, or a refusal; and
    that whoever has waited is settled. */
module BridgeCalls {
  import opened Basics
  import opened Correlation
  import opened BridgeSession

  lemma RunOnStep(s: Session, ms: seq<Move>, m: Move)
    ensures RunOn(s, ms + [m]) == Advance(RunOn(s, ms), m)
  {
    assert (ms + [m])[..|ms|] == ms;
  }

  /** The moves of a call up to the wait. */
  function Sent(r: RequestId, f: FutureId): seq<Move> {
    [] + [BeginCall(r, f)] + [Enroll(r)] + [StartSend(r)] + [FinishSend(r, true)]
  }

  /** The call waits, and the table leads to its future. */
  predicate AwaitsAnswer(s: Session, r: RequestId, f: FutureId) {
    && r in s.calls && s.calls[r] == Awaiting(f)
    && r in s.net.pending && s.net.pending[r] == f && f in s.net.futures && s.net.futures[f] == Waiting
  }

  /** The call has returned with this outcome, and its entry is gone. */
  predicate Concluded(s: Session, r: RequestId, f: FutureId, o: Outcome) {
    r in s.calls && s.calls[r] == Returned(f) && f in s.net.futures && s.net.futures[f] == o && r !in s.net.pending
  }

  lemma SentWaits(s: Session, r: RequestId, f: FutureId)
    requires s.connected && r !in s.calls && !InUse(s, f)
    ensures var t := RunOn(s, Sent(r, f)); AwaitsAnswer(t, r, f) && t.receiving == s.receiving
  {
    var begun := [] + [BeginCall(r, f)];
    var enrolled := begun + [Enroll(r)];
    RunOnStep(s, [], BeginCall(r, f));
    RunOnStep(s, begun, Enroll(r));
    RunOnStep(s, enrolled, StartSend(r));
    RunOnStep(s, enrolled + [StartSend(r)], FinishSend(r, true));
    var t := RunOn(s, enrolled);
    assert t.calls[r] == Enrolled(f) && t.connected && t.net == Register(s.net, r, f);
    assert RunOn(s, enrolled + [StartSend(r)]) == t.(calls := t.calls[r := Sending(f)]);
  }

  lemma AnswerConcludes(s: Session, r: RequestId, f: FutureId, m: Message)
    requires AwaitsAnswer(s, r, f) && s.receiving && m.request == r
    ensures Concluded(Advance(Advance(Advance(s, Response(m)), Wake(r)), Finish(r)), r, f, Answered(m))
  {
    var t := Advance(s, Response(m));
    assert t.net.futures[f] == Answered(m) && t.calls[r] == Awaiting(f);
    var u := Advance(t, Wake(r));
    assert u == t.(calls := t.calls[r := Ended(f)]);
  }

  lemma TimeOutConcludes(s: Session, r: RequestId, f: FutureId)
    requires AwaitsAnswer(s, r, f)
    ensures Concluded(Advance(Advance(s, GiveUp(r)), Finish(r)), r, f, Cancelled)
  {
    var t := Advance(s, GiveUp(r));
    assert t.net.futures[f] == Cancelled && t.calls[r] == Ended(f);
  }

  /** From any state with a connection: a call with a new request is sent, and its
      response is its result; and the entry is gone when it returns. */
  lemma CallIsAnswered(s: Session, r: RequestId, f: FutureId, m: Message)
    requires s.connected && s.receiving && r !in s.calls && !InUse(s, f) && m.request == r
    ensures Concluded(RunOn(s, Sent(r, f) + [Response(m)] + [Wake(r)] + [Finish(r)]), r, f, Answered(m))
  {
    SentWaits(s, r, f);
    AnswerConcludes(RunOn(s, Sent(r, f)), r, f, m);
    RunOnStep(s, Sent(r, f), Response(m));
    RunOnStep(s, Sent(r, f) + [Response(m)], Wake(r));
    RunOnStep(s, Sent(r, f) + [Response(m)] + [Wake(r)], Finish(r));
  }

  /** Without a response it times out: its future is cancelled, and its entry is
      gone when it returns. */
  lemma CallTimesOut(s: Session, r: RequestId, f: FutureId)
    requires s.connected && r !in s.calls && !InUse(s, f)
    ensures Concluded(RunOn(s, Sent(r, f) + [GiveUp(r)] + [Finish(r)]), r, f, Cancelled)
  {
    SentWaits(s, r, f);
    TimeOutConcludes(RunOn(s, Sent(r, f)), r, f);
    RunOnStep(s, Sent(r, f), GiveUp(r));
    RunOnStep(s, Sent(r, f) + [GiveUp(r)], Finish(r));
  }

  /** Without a connection, as after `stop` or a cleanup dropped the socket, a call
      is refused and leaves no trace. */
  lemma CallIsRefused(s: Session, r: RequestId, f: FutureId)
    ensures !s.connected ==> Advance(s, BeginCall(r, f)) == s
    ensures var t := Advance(s, StopSocket); Advance(t, BeginCall(r, f)) == t
    ensures var t := Advance(s, DropSocket); s.loop == Resetting ==> Advance(t, BeginCall(r, f)) == t
  {
  }

  predicate Settled(s: Session, f: FutureId) {
    f in s.net.futures && s.net.futures[f] != Waiting
  }

  /** A call that has waited to the end has a settled future. */
  ghost predicate EndedSettled(s: Session, r: RequestId) {
    r in s.calls && s.calls[r].Ended? ==> Settled(s, s.calls[r].future)
  }

  lemma EndingSettles(s: Session, m: Move, r: RequestId)
    requires SessionInv(s)
    ensures IsCallMove(m) && !(r in s.calls && s.calls[r].Ended?) ==> EndedSettled(CallMove(s, m), r)
  {
    if IsCallMove(m) && r in CallMove(s, m).calls && CallMove(s, m).calls[r].Ended?
       && !(r in s.calls && s.calls[r].Ended?) {
      assert Active(s.calls[r]);
    }
  }

  lemma SettledStays(s: Session, m: Move, f: FutureId)
    requires SessionInv(s) && Settled(s, f)
    ensures Settled(Advance(s, m), f)
  {
    if m.Enroll? && CallMove(s, m) != s {
      assert s.calls[m.request].future !in s.net.futures;
    }
  }

  lemma EndedStep(s: Session, m: Move, r: RequestId)
    requires SessionInv(s) && EndedSettled(s, r)
    ensures EndedSettled(Advance(s, m), r)
  {
    if r in s.calls && s.calls[r].Ended? {
      SettledStays(s, m, s.calls[r].future);
      assert Advance(s, m).calls[r].future == s.calls[r].future;
    } else {
      EndingSettles(s, m, r);
    }
  }

  /** In every interleaving, every call that has waited to the end has a settled
      future. */
  lemma {:induction false} EndedIsSettled(ms: seq<Move>, r: RequestId)
    ensures EndedSettled(RunSession(ms), r)
  {
    if ms != [] {
      RunKeepsSession(ms[..|ms| - 1]);
      EndedIsSettled(ms[..|ms| - 1], r);
      EndedStep(RunSession(ms[..|ms| - 1]), ms[|ms| - 1], r);
    }
  }

  /** The agents of the last update the receive loop took since the last reset, or
      none. */
  function LatestAgents(ms: seq<Move>): seq<string> {
    if ms == [] then []
    else
      var s, m := RunSession(ms[..|ms| - 1]), ms[|ms| - 1];
      if s.receiving && m.AgentsUpdate? then m.allAgents
      else if Resets(s, m) then [] else LatestAgents(ms[..|ms| - 1])
  }

  lemma AgentsMove(s: Session, m: Move)
    ensures Advance(s, m).agents
            == if s.receiving && m.AgentsUpdate? then m.allAgents else if Resets(s, m) then [] else s.agents
  {
  }

  lemma {:induction false} AgentsAreLatest(ms: seq<Move>)
    ensures RunSession(ms).agents == LatestAgents(ms)
  {
    if ms != [] {
      AgentsAreLatest(ms[..|ms| - 1]);
      AgentsMove(RunSession(ms[..|ms| - 1]), ms[|ms| - 1]);
    }
  }
}
