/** Which handlers and plugins are live after a run, read off its operations,
    and so what a query for an intent answers. */
module HandlerHistory {
  import opened Basics
  import opened PriorityIndex
  import opened Registries

  // ---------- External handlers ----------

  /** The operation unregisters `h`, by id or with its instance. */
  predicate Ends(op: RegistryOp, h: Handler) {
    (op.UnregisterOp? && op.id == h.id) || (op.UnregisterInstanceOp? && op.instance == h.instance)
  }

  /** The registration at position `k` was never undone. */
  predicate Lives(ops: seq<RegistryOp>, k: nat)
    requires k < |ops|
  {
    ops[k].RegisterOp? && NoneEnds(ops[k + 1..], ops[k].handler)
  }

  predicate NoneEnds(ops: seq<RegistryOp>, h: Handler) {
    forall op :: op in ops ==> !Ends(op, h)
  }

  /** The handlers of the live registrations, in order. */
  function Live(ops: seq<RegistryOp>): seq<Handler> {
    Picked(LiveSlots(ops))
  }

  function LiveSlots(ops: seq<RegistryOp>): seq<Option<Handler>> {
    seq(|ops|, k requires 0 <= k < |ops| => if Lives(ops, k) then Some(ops[k].handler) else None)
  }

  function Outlives(op: RegistryOp): Handler -> bool {
    (h: Handler) => !Ends(op, h)
  }

  lemma LivesStep(before: seq<RegistryOp>, op: RegistryOp, k: nat)
    requires k < |before|
    ensures Lives(before + [op], k) <==> Lives(before, k) && !Ends(op, before[k].handler)
  {
    assert (before + [op])[k] == before[k] && (before + [op])[k + 1..] == before[k + 1..] + [op];
  }

  lemma LiveStep(before: seq<RegistryOp>, op: RegistryOp)
    ensures Live(before + [op])
            == Filter(Outlives(op), Live(before)) + (if op.RegisterOp? then [op.handler] else [])
  {
    var ops := before + [op];
    var rest := LiveSlots(ops)[..|before|];
    forall k | 0 <= k < |before|
      ensures rest[k] == if Lives(before, k) && !Ends(op, before[k].handler) then Some(before[k].handler) else None
    {
      LivesStep(before, op, k);
    }
    PickedFilter(Outlives(op), LiveSlots(before), rest);
    assert Lives(ops, |before|) <==> op.RegisterOp?;
    PickedLast(rest, if op.RegisterOp? then Some(op.handler) else None);
    assert LiveSlots(ops) == rest + [if op.RegisterOp? then Some(op.handler) else None];
  }

  lemma EndingIsFiltering(r: Registry, op: RegistryOp)
    requires IndexIsSort(r) && !op.RegisterOp?
    ensures RegistryStep(r, op).handlers == Filter(Outlives(op), r.handlers)
  {
    match op
    case UnregisterOp(id) =>
      UnregisterKeepsSort(r, id);
      FilterAgree((h: Handler) => h.id != id, Outlives(op), r.handlers);
    case UnregisterInstanceOp(i) =>
      UnregisterByInstanceKeepsSort(r, i);
      FilterAgree((h: Handler) => h.instance != i, Outlives(op), r.handlers);
  }

  /** In every run the live handlers are, in order of registration, exactly those
      whose registration was not undone by a later operation. */
  lemma {:induction false} RunHandlersAreLive(ops: seq<RegistryOp>)
    requires FreshHandlerIds(ops)
    ensures RunRegistry(ops).handlers == Live(ops)
  {
    if ops != [] {
      var before, op := ops[..|ops| - 1], ops[|ops| - 1];
      assert ops == before + [op];
      RunHandlersAreLive(before);
      RunIndexIsSort(before);
      LiveStep(before, op);
      if op.RegisterOp? {
        FilterAll(Outlives(op), Live(before));
      } else {
        EndingIsFiltering(RunRegistry(before), op);
      }
    }
  }

  /** The live registration at position `k` is of `h`. */
  predicate LivesAs(ops: seq<RegistryOp>, k: int, h: Handler) {
    0 <= k < |ops| && Lives(ops, k) && ops[k].handler == h
  }

  lemma LiveHandlerOnce(ops: seq<RegistryOp>, h: Handler)
    requires FreshHandlerIds(ops)
    ensures Count(Live(ops), h) == if exists k :: LivesAs(ops, k, h) then 1 else 0
  {
    PickedHolds(LiveSlots(ops), h);
    forall k | 0 <= k < |ops| ensures LiveSlots(ops)[k] == Some(h) <==> LivesAs(ops, k, h) {
    }
    PickedOnce(LiveSlots(ops), h);
  }

  // ---------- What a query answers ----------

  lemma {:induction false} CountInsert(h: Handler, s: seq<Handler>, g: Handler)
    ensures Count(Insert(h, s), g) == Count(s, g) + (if g == h then 1 else 0)
  {
    if s == [] || s[|s| - 1].priority >= h.priority {
      CountAppend(s, [h], g);
    } else {
      var front, last := s[..|s| - 1], s[|s| - 1];
      assert s == front + [last];
      CountInsert(h, front, g);
      CountAppend(front, [last], g);
      CountAppend(Insert(h, front), [last], g);
    }
  }

  lemma {:induction false} CountSorted(s: seq<Handler>, g: Handler)
    ensures Count(StableSort(s), g) == Count(s, g)
  {
    if s != [] {
      var front, last := s[..|s| - 1], s[|s| - 1];
      assert s == front + [last];
      CountSorted(front, g);
      CountInsert(last, StableSort(front), g);
      CountAppend(front, [last], g);
    }
  }

  lemma {:induction false} CountRepeat(h: Handler, n: nat, g: Handler)
    ensures Count(Repeat(h, n), g) == if g == h then n else 0
  {
    if n > 0 {
      CountRepeat(h, n - 1, g);
      CountAppend(Repeat(h, n - 1), [h], g);
    }
  }

  lemma {:induction false} CountListed(s: seq<Handler>, x: string, g: Handler)
    requires Count(s, g) <= 1
    ensures Count(Listed(s, x), g) == if Count(s, g) == 1 then Count(g.intents, x) else 0
  {
    if s != [] {
      var front, last := s[..|s| - 1], s[|s| - 1];
      assert s == front + [last];
      CountAppend(front, [last], g);
      CountListed(front, x, g);
      CountRepeat(last, Count(last.intents, x), g);
      CountAppend(Listed(front, x), Repeat(last, Count(last.intents, x)), g);
    }
  }

  /** In every run the index answers for an intent with every handler whose
      registration was not undone, as often as it lists the intent, and with no
      other; and the answer is the live handlers' stable sort. */
  lemma QueryAnswersLive(ops: seq<RegistryOp>, x: string, h: Handler)
    requires FreshHandlerIds(ops)
    ensures var answer := At(RunRegistry(ops).index, x);
            && Count(answer, h) == (if exists k :: LivesAs(ops, k, h) then Count(h.intents, x) else 0)
            && answer == StableSort(Listed(Live(ops), x))
  {
    RunHandlersAreLive(ops);
    RunIndexIsSort(ops);
    LiveHandlerOnce(ops, h);
    CountListed(Live(ops), x, h);
    CountSorted(Listed(Live(ops), x), h);
  }

  // ---------- Plugins ----------

  /** The object was added and not removed since. */
  predicate Stays(ops: seq<PluginOp>, p: Handler) {
    exists k :: 0 <= k < |ops| && ops[k] == AddOp(p) && NotRemovedAfter(ops, k, p)
  }

  predicate NotRemovedAfter(ops: seq<PluginOp>, k: int, p: Handler) {
    forall j :: k < j < |ops| ==> 0 <= j && ops[j] != RemoveOp(p)
  }

  /** The addition at position `k` is the one that counts: the object was not
      there before it, and was never removed after it. */
  predicate Founds(ops: seq<PluginOp>, k: nat)
    requires k < |ops|
  {
    ops[k].AddOp? && NotRemovedAfter(ops, k, ops[k].plugin) && !Stays(ops[..k], ops[k].plugin)
  }

  function LivePlugins(ops: seq<PluginOp>): seq<Handler> {
    Picked(PluginSlots(ops))
  }

  function PluginSlots(ops: seq<PluginOp>): seq<Option<Handler>> {
    seq(|ops|, k requires 0 <= k < |ops| => if Founds(ops, k) then Some(ops[k].plugin) else None)
  }

  lemma StaysStep(before: seq<PluginOp>, op: PluginOp, p: Handler)
    ensures Stays(before + [op], p) <==> op == AddOp(p) || (Stays(before, p) && op != RemoveOp(p))
  {
    var ops := before + [op];
    assert forall j :: 0 <= j < |before| ==> ops[j] == before[j];
    assert ops[|before|] == op;
    if op == AddOp(p) {
      assert NotRemovedAfter(ops, |before|, p);
    }
    if Stays(before, p) && op != RemoveOp(p) {
      var k :| 0 <= k < |before| && before[k] == AddOp(p) && NotRemovedAfter(before, k, p);
      assert ops[k] == AddOp(p) && NotRemovedAfter(ops, k, p);
    }
    if Stays(ops, p) && op != AddOp(p) {
      var k :| 0 <= k < |ops| && ops[k] == AddOp(p) && NotRemovedAfter(ops, k, p);
      assert before[k] == AddOp(p) && NotRemovedAfter(before, k, p);
    }
  }

  lemma FoundsStep(before: seq<PluginOp>, op: PluginOp, k: nat)
    requires k < |before|
    ensures Founds(before + [op], k) <==> Founds(before, k) && op != RemoveOp(before[k].plugin)
  {
    var ops := before + [op];
    assert forall j :: 0 <= j < |before| ==> ops[j] == before[j];
    assert ops[|before|] == op && ops[..k] == before[..k];
    if ops[k].AddOp? && NotRemovedAfter(ops, k, ops[k].plugin) {
      assert NotRemovedAfter(before, k, before[k].plugin);
    }
  }

  function NotRemovedBy(op: PluginOp): Handler -> bool {
    (p: Handler) => op != RemoveOp(p)
  }

  lemma LivePluginsStep(before: seq<PluginOp>, op: PluginOp)
    ensures LivePlugins(before + [op])
            == Filter(NotRemovedBy(op), LivePlugins(before))
               + (if op.AddOp? && !Stays(before, op.plugin) then [op.plugin] else [])
  {
    var ops := before + [op];
    var rest := PluginSlots(ops)[..|before|];
    forall k | 0 <= k < |before|
      ensures rest[k] == if Founds(before, k) && op != RemoveOp(before[k].plugin) then Some(before[k].plugin) else None
    {
      FoundsStep(before, op, k);
    }
    PickedFilter(NotRemovedBy(op), PluginSlots(before), rest);
    var last := if op.AddOp? && !Stays(before, op.plugin) then Some(op.plugin) else None;
    assert ops[..|before|] == before;
    assert Founds(ops, |before|) <==> last.Some?;
    PickedLast(rest, last);
    assert PluginSlots(ops) == rest + [last];
  }

  lemma PluginStepIsFiltering(r: Registry, p: Handler)
    requires PluginsIndexed(r) && forall q :: q in r.handlers && q.id == p.id ==> q == p
    ensures UnregisterPlugin(r, p).handlers == Filter(NotRemovedBy(RemoveOp(p)), r.handlers)
  {
    UnregisterPluginKeeps(r, p);
    FilterAgree((q: Handler) => q.id != p.id, NotRemovedBy(RemoveOp(p)), r.handlers);
  }

  /** In every run the plugins are exactly the objects added and not removed
      since, in the order of the additions that count. */
  lemma {:induction false} RunPluginsAreLive(ops: seq<PluginOp>)
    requires DistinctObjects(ops)
    ensures RunPlugins(ops).handlers == LivePlugins(ops)
    ensures forall p :: p in RunPlugins(ops).handlers <==> Stays(ops, p)
  {
    if ops != [] {
      var before, op := ops[..|ops| - 1], ops[|ops| - 1];
      assert ops == before + [op];
      assert forall a :: 0 <= a < |before| ==> before[a] == ops[a];
      var r := RunPlugins(before);
      RunPluginsAreLive(before);
      RunPluginsIndexed(before);
      LivePluginsStep(before, op);
      forall p ensures Stays(ops, p) <==> op == AddOp(p) || (Stays(before, p) && op != RemoveOp(p)) {
        StaysStep(before, op, p);
      }
      forall q | q in r.handlers && q.id == op.plugin.id ensures q == op.plugin {
        var a :| 0 <= a < |before| && before[a].plugin == q;
        assert ops[a].plugin == q && ops[|ops| - 1].plugin == op.plugin;
      }
      match op
      case RemoveOp(p) => PluginStepIsFiltering(r, p);
      case AddOp(p) => FilterAll(NotRemovedBy(op), LivePlugins(before));
    }
  }

  /** In every run the plugin index answers for an intent with every object that
      was added and not removed since, as often as it lists the intent. */
  lemma PluginQueryAnswersLive(ops: seq<PluginOp>, x: string, p: Handler)
    requires DistinctObjects(ops)
    ensures Count(At(RunPlugins(ops).index, x), p) == if Stays(ops, p) then Count(p.intents, x) else 0
    ensures At(RunPlugins(ops).index, x) == StableSort(Listed(LivePlugins(ops), x))
  {
    var r := RunPlugins(ops);
    RunPluginsAreLive(ops);
    RunPluginsIndexed(ops);
    CountListed(r.handlers, x, p);
    CountSorted(Listed(r.handlers, x), p);
  }
}
