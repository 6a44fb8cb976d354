/** Which listeners each table holds after a run, read off its operations, and
    so what the queries answer. */
module ListenerHistory {
  import opened Basics
  import opened Listeners

  datatype Kind = Contexts | Intents | Events

  predicate AddsTo(op: StoreOp, kind: Kind) {
    match kind
    case Contexts => op.AddContextOp?
    case Intents => op.AddIntentOp?
    case Events => op.AddEventOp?
  }

  function TableOf(s: Store, kind: Kind): Table {
    match kind
    case Contexts => s.contexts
    case Intents => s.intents
    case Events => s.events
  }

  /** The operation removes `l`, by id or with its instance. */
  predicate Ends(op: StoreOp, l: Listener) {
    (op.RemoveOp? && op.id == l.id) || (op.RemoveInstanceOp? && op.instance == l.instance)
  }

  /** The addition at position `k` went to that table and was never undone. */
  predicate Lives(ops: seq<StoreOp>, kind: Kind, k: nat)
    requires k < |ops|
  {
    AddsTo(ops[k], kind) && NoneEnds(ops[k + 1..], ops[k].listener)
  }

  predicate NoneEnds(ops: seq<StoreOp>, l: Listener) {
    forall op :: op in ops ==> !Ends(op, l)
  }

  function Live(ops: seq<StoreOp>, kind: Kind): Table {
    Picked(LiveSlots(ops, kind))
  }

  function LiveSlots(ops: seq<StoreOp>, kind: Kind): seq<Option<Listener>> {
    seq(|ops|, k requires 0 <= k < |ops| => if Lives(ops, kind, k) then Some(ops[k].listener) else None)
  }

  function Outlives(op: StoreOp): Listener -> bool {
    (l: Listener) => !Ends(op, l)
  }

  lemma LivesStep(before: seq<StoreOp>, op: StoreOp, kind: Kind, k: nat)
    requires k < |before|
    ensures Lives(before + [op], kind, k) <==> Lives(before, kind, k) && !Ends(op, before[k].listener)
  {
    assert (before + [op])[k] == before[k] && (before + [op])[k + 1..] == before[k + 1..] + [op];
  }

  lemma LiveStep(before: seq<StoreOp>, op: StoreOp, kind: Kind)
    ensures Live(before + [op], kind)
            == Filter(Outlives(op), Live(before, kind)) + (if AddsTo(op, kind) then [op.listener] else [])
  {
    var ops := before + [op];
    var rest := LiveSlots(ops, kind)[..|before|];
    forall k | 0 <= k < |before|
      ensures rest[k]
              == if Lives(before, kind, k) && !Ends(op, before[k].listener) then Some(before[k].listener) else None
    {
      LivesStep(before, op, kind, k);
    }
    PickedFilter(Outlives(op), LiveSlots(before, kind), rest);
    var last := if AddsTo(op, kind) then Some(op.listener) else None;
    assert Lives(ops, kind, |before|) <==> last.Some?;
    PickedLast(rest, last);
    assert LiveSlots(ops, kind) == rest + [last];
  }

  /** A removal filters every table, with fresh ids even those it leaves as they
      are. */
  lemma RemovalIsFiltering(s: Store, op: StoreOp, kind: Kind)
    requires Kept(s) && !IsAdd(op)
    ensures TableOf(StoreStep(s, op), kind) == Filter(Outlives(op), TableOf(s, kind))
  {
    match op
    case RemoveOp(k) =>
      AtMostOneTable(s, k);
      if HasId(TableOf(s, kind), k) {
        FilterAgree((l: Listener) => l.id != k, Outlives(op), TableOf(s, kind));
      } else {
        FilterAll(Outlives(op), TableOf(s, kind));
      }
    case RemoveInstanceOp(i) =>
      FilterAgree((l: Listener) => l.instance != i, Outlives(op), TableOf(s, kind));
  }

  lemma AdditionAppends(s: Store, op: StoreOp, kind: Kind)
    requires IsAdd(op) && !Known(s, op.listener.id)
    ensures TableOf(StoreStep(s, op), kind) == TableOf(s, kind) + (if AddsTo(op, kind) then [op.listener] else [])
  {
    if AddsTo(op, kind) {
      PutFresh(TableOf(s, kind), op.listener, op.listener.id);
    }
  }

  /** In every run with fresh ids each table holds, in order, exactly the
      listeners that were added to it and not removed since. */
  lemma {:induction false} RunTablesAreLive(ops: seq<StoreOp>, kind: Kind)
    requires FreshIds(ops)
    ensures TableOf(RunStore(ops), kind) == Live(ops, kind)
  {
    if ops != [] {
      var before, op := ops[..|ops| - 1], ops[|ops| - 1];
      assert ops == before + [op];
      RunTablesAreLive(before, kind);
      LiveStep(before, op, kind);
      if IsAdd(op) {
        FilterAll(Outlives(op), Live(before, kind));
        NewIdIsUnknown(before, op);
        AdditionAppends(RunStore(before), op, kind);
      } else {
        RunKeepsStore(before);
        RemovalIsFiltering(RunStore(before), op, kind);
      }
    }
  }

  lemma {:induction false} NewIdIsUnknown(before: seq<StoreOp>, op: StoreOp)
    requires FreshIds(before + [op]) && IsAdd(op)
    ensures FreshIds(before) && !Known(RunStore(before), op.listener.id)
  {
    var ops := before + [op];
    assert forall a :: 0 <= a < |before| ==> ops[a] == before[a];
    assert ops[|before|] == op;
    assert !AddedBy(before, op.listener.id);
    RunKeepsStore(before);
  }

  lemma LiveAt(ops: seq<StoreOp>, kind: Kind, l: Listener)
    ensures l in Live(ops, kind) <==> exists k :: 0 <= k < |ops| && Lives(ops, kind, k) && ops[k].listener == l
  {
    PickedHolds(LiveSlots(ops, kind), l);
    forall k | 0 <= k < |ops|
      ensures LiveSlots(ops, kind)[k] == Some(l) <==> Lives(ops, kind, k) && ops[k].listener == l
    {
    }
  }

  // ---------- What the queries answer ----------

  /** The operations of the store object build listeners of the right topic. */
  predicate WellTyped(ops: seq<StoreOp>) {
    forall k :: 0 <= k < |ops| ==>
      && (ops[k].AddContextOp? ==> ops[k].listener.topic.OnContext?)
      && (ops[k].AddIntentOp? ==> ops[k].listener.topic.OnIntent?)
      && (ops[k].AddEventOp? ==> ops[k].listener.topic.OnEvent?)
  }

  lemma ListedWasAdded(ops: seq<StoreOp>, kind: Kind, l: Listener)
    requires FreshIds(ops) && l in TableOf(RunStore(ops), kind)
    ensures exists k :: 0 <= k < |ops| && AddsTo(ops[k], kind) && ops[k].listener == l
  {
    RunTablesAreLive(ops, kind);
    LiveAt(ops, kind, l);
  }

  /** Each table holds listeners of its own topic only. */
  lemma RunTablesAreTyped(ops: seq<StoreOp>)
    requires FreshIds(ops) && WellTyped(ops)
    ensures forall l :: l in RunStore(ops).contexts ==> l.topic.OnContext?
    ensures forall l :: l in RunStore(ops).intents ==> l.topic.OnIntent?
    ensures forall l :: l in RunStore(ops).events ==> l.topic.OnEvent?
  {
    forall l | l in RunStore(ops).contexts ensures l.topic.OnContext? {
      ListedWasAdded(ops, Contexts, l);
    }
    forall l | l in RunStore(ops).intents ensures l.topic.OnIntent? {
      ListedWasAdded(ops, Intents, l);
    }
    forall l | l in RunStore(ops).events ensures l.topic.OnEvent? {
      ListedWasAdded(ops, Events, l);
    }
  }

  /** In every run the listeners found for an intent are exactly those added as
      intent listeners with that intent and not removed since. */
  lemma IntentQueryAnswersLive(ops: seq<StoreOp>, intent: string, l: Listener)
    requires FreshIds(ops)
    ensures l in IntentListenersFor(RunStore(ops).intents, intent)
            <==> && l.topic == OnIntent(intent)
                 && exists k :: 0 <= k < |ops| && Lives(ops, Intents, k) && ops[k].listener == l
  {
    RunTablesAreLive(ops, Intents);
    LiveAt(ops, Intents, l);
    assert TableOf(RunStore(ops), Intents) == RunStore(ops).intents;
  }

  /** The query asks for this listener: of its type, or hearing all types; on
      its channel, or global if those are included; no type and no channel ask
      for all. */
  predicate Asked(l: Listener, typ: Option<string>, channel: Option<string>, includeGlobal: bool) {
    && l.topic.OnContext?
    && (typ == None || l.topic.contextType == typ || l.topic.contextType == None)
    && (channel == None || l.topic.contextChannel == channel || (includeGlobal && l.topic.contextChannel == None))
  }

  /** The same for context listeners, a type and a channel. */
  lemma ContextQueryAnswersLive(ops: seq<StoreOp>, typ: Option<string>, channel: Option<string>, includeGlobal: bool,
                                l: Listener)
    requires FreshIds(ops)
    ensures l in ContextListenersFor(RunStore(ops).contexts, typ, channel, includeGlobal)
            <==> && Asked(l, typ, channel, includeGlobal)
                 && exists k :: 0 <= k < |ops| && Lives(ops, Contexts, k) && ops[k].listener == l
  {
    RunTablesAreLive(ops, Contexts);
    LiveAt(ops, Contexts, l);
    assert TableOf(RunStore(ops), Contexts) == RunStore(ops).contexts;
  }

  /** After a fresh addition every query answers as before, followed by the new
      listener exactly if it was added to the table asked and matches. */
  lemma AdditionExtendsAnswers(s: Store, op: StoreOp, intent: string, typ: Option<string>, channel: Option<string>,
                               includeGlobal: bool)
    requires IsAdd(op) && !Known(s, op.listener.id)
    ensures var (l, t) := (op.listener, StoreStep(s, op));
            && IntentListenersFor(t.intents, intent)
               == IntentListenersFor(s.intents, intent)
                  + (if op.AddIntentOp? && l.topic == OnIntent(intent) then [l] else [])
            && ContextListenersFor(t.contexts, typ, channel, includeGlobal)
               == ContextListenersFor(s.contexts, typ, channel, includeGlobal)
                  + (if op.AddContextOp? && Asked(l, typ, channel, includeGlobal) then [l] else [])
            && t.events == s.events + (if op.AddEventOp? then [l] else [])
  {
    var l := op.listener;
    AdditionAppends(s, op, Contexts);
    AdditionAppends(s, op, Intents);
    AdditionAppends(s, op, Events);
    var t := StoreStep(s, op);
    assert t.contexts == s.contexts + (if op.AddContextOp? then [l] else []);
    assert t.intents == s.intents + (if op.AddIntentOp? then [l] else []);
    assert t.events == s.events + (if op.AddEventOp? then [l] else []);
    if op.AddContextOp? {
      ContextQueryAppend(s.contexts, l, typ, channel, includeGlobal);
    } else if op.AddIntentOp? {
      FilterAppend((m: Listener) => m.topic == OnIntent(intent), s.intents, [l]);
    }
  }

  lemma ContextQueryAppend(t: Table, l: Listener, typ: Option<string>, channel: Option<string>, includeGlobal: bool)
    ensures ContextListenersFor(t + [l], typ, channel, includeGlobal)
            == ContextListenersFor(t, typ, channel, includeGlobal)
               + (if Asked(l, typ, channel, includeGlobal) then [l] else [])
  {
    FilterAppend((m: Listener) =>
                   m.topic.OnContext? && (typ == None || m.topic.contextType == typ || m.topic.contextType == None),
                 t, [l]);
    assert OfContextType(t + [l], typ) == OfContextType(t, typ) + OfContextType([l], typ);
    if OfContextType([l], typ) == [l] {
      OnChannelAppend(OfContextType(t, typ), l, channel, includeGlobal);
      assert OnChannel([l], channel, includeGlobal) == if Asked(l, typ, channel, includeGlobal) then [l] else [];
    } else {
      assert OfContextType([l], typ) == [];
      assert OfContextType(t + [l], typ) == OfContextType(t, typ) && !Asked(l, typ, channel, includeGlobal);
    }
  }
}
