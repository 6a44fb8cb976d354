/** The two registries that keep a priority index: handlers of external
    processes, and plugin objects. */
module Registries {
  import opened Basics
  import opened PriorityIndex

  class ExternalHandlerRegistry {
    var handlers: seq<Handler>  // the values of the handler dictionary
    var intentMap: IntentMap

    function View(): Registry
      reads this
    {
      Registry(handlers, intentMap)
    }

    constructor ()
      ensures View() == NO_HANDLERS
    {
      handlers, intentMap := [], map[];
    }

    /** Appends to one intent's list and sorts it again. */
    method IndexUnder(h: Handler, x: string)
      modifies this`intentMap
      ensures intentMap == old(intentMap)[x := StableSort(At(old(intentMap), x) + [h])]
    {
      var listed := (if x in intentMap then intentMap[x] else []) + [h];
      intentMap := intentMap[x := StableSort(listed)];
    }

    /** Indexes a handler under each of its intents. */
    method IndexAll(h: Handler)
      modifies this`intentMap
      ensures intentMap == IndexIntents(old(intentMap), h, h.intents)
    {
      for k := 0 to |h.intents|
        invariant intentMap == IndexIntents(old(intentMap), h, h.intents[..k])
      {
        assert h.intents[..k + 1][..k] == h.intents[..k];
        IndexUnder(h, h.intents[k]);
      }
      assert h.intents[..|h.intents|] == h.intents;
    }

    /** `uuid` is newly generated. */
    method RegisterHandler(uuid: string, instance: string, intents: seq<string>, priority: int) returns (id: string)
      requires forall h :: h in handlers ==> h.id != uuid
      modifies this
      ensures id == uuid
      ensures View() == Register(old(View()), Handler(uuid, instance, intents, priority))
    {
      var h := Handler(uuid, instance, intents, priority);
      handlers := handlers + [h];
      IndexAll(h);
      id := uuid;
    }

    method UnregisterHandler(uuid: string)
      modifies this
      ensures View() == Unregister(old(View()), uuid)
    {
      var found := FindHandler(handlers, uuid);
      if found == None {
        return;
      }
      var intents := found.value.intents;
      handlers := WithoutHandler(handlers, uuid);
      for k := 0 to |intents|
        invariant handlers == WithoutHandler(old(handlers), uuid)
        invariant intentMap == DropIntents(old(intentMap), uuid, intents[..k])
      {
        assert intents[..k + 1][..k] == intents[..k];
        var x := intents[k];
        if x in intentMap {
          var rest := WithoutHandler(intentMap[x], uuid);
          if rest == [] {
            intentMap := intentMap - {x};
          } else {
            intentMap := intentMap[x := rest];
          }
        }
      }
      assert intents[..|intents|] == intents;
    }

    method UnregisterInstance(instance: string)
      modifies this
      ensures View() == UnregisterByInstance(old(View()), instance)
    {
      var ids := IdsOf(handlers, instance);
      for k := 0 to |ids|
        invariant View() == UnregisterAll(old(View()), ids[..k])
      {
        assert ids[..k + 1][..k] == ids[..k];
        UnregisterHandler(ids[k]);
      }
      assert ids[..|ids|] == ids;
    }

    method GetHandlersForIntent(x: string) returns (r: seq<Handler>)
      requires IndexIsSort(View())
      ensures r == StableSort(Listed(handlers, x))
    {
      r := if x in intentMap then intentMap[x] else [];
      assert r == At(View().index, x);
    }
  }

  // ---------- Plugins ----------

  function RegisterPlugin(r: Registry, p: Handler): Registry {
    if p in r.handlers then r else Register(r, p)
  }

  function UnregisterPlugin(r: Registry, p: Handler): Registry {
    if p !in r.handlers then r
    else Registry(WithoutFirst(r.handlers, p), DropIntents(r.index, p.id, p.intents))
  }

  class PluginRegistry {
    var plugins: seq<Handler>
    var intentMap: IntentMap

    function View(): Registry
      reads this
    {
      Registry(plugins, intentMap)
    }

    constructor ()
      ensures View() == NO_HANDLERS
    {
      plugins, intentMap := [], map[];
    }

    method IndexUnder(p: Handler, x: string)
      modifies this`intentMap
      ensures intentMap == old(intentMap)[x := StableSort(At(old(intentMap), x) + [p])]
    {
      if x !in intentMap {
        intentMap := intentMap[x := []];
      }
      var listed := intentMap[x] + [p];
      intentMap := intentMap[x := listed];
      intentMap := intentMap[x := StableSort(listed)];
    }

    method AddPlugin(p: Handler)
      modifies this
      ensures View() == RegisterPlugin(old(View()), p)
    {
      if p in plugins {
        return;
      }
      plugins := plugins + [p];
      for k := 0 to |p.intents|
        invariant plugins == old(plugins) + [p]
        invariant intentMap == IndexIntents(old(intentMap), p, p.intents[..k])
      {
        assert p.intents[..k + 1][..k] == p.intents[..k];
        IndexUnder(p, p.intents[k]);
      }
      assert p.intents[..|p.intents|] == p.intents;
    }

    method RemovePlugin(p: Handler)
      modifies this
      ensures View() == UnregisterPlugin(old(View()), p)
    {
      if p !in plugins {
        return;
      }
      plugins := WithoutFirst(plugins, p);
      for k := 0 to |p.intents|
        invariant plugins == WithoutFirst(old(plugins), p)
        invariant intentMap == DropIntents(old(intentMap), p.id, p.intents[..k])
      {
        assert p.intents[..k + 1][..k] == p.intents[..k];
        var x := p.intents[k];
        if x in intentMap {
          intentMap := intentMap[x := WithoutHandler(intentMap[x], p.id)];
          if intentMap[x] == [] {
            intentMap := intentMap - {x};
          }
        }
      }
      assert p.intents[..|p.intents|] == p.intents;
    }
  }

  /** No plugin object is registered twice. */
  ghost predicate PluginsIndexed(r: Registry) {
    IndexIsSort(r) && forall p :: Count(r.handlers, p) <= 1
  }

  lemma {:induction false} RemovingOnceIsFiltering(s: seq<Handler>, p: Handler)
    requires Count(s, p) <= 1 && forall q :: q in s && q.id == p.id ==> q == p
    ensures WithoutFirst(s, p) == WithoutHandler(s, p.id)
  {
    if s != [] {
      if s[0] == p {
        WithoutHandlerAbsent(s[1..], p.id);
      } else {
        RemovingOnceIsFiltering(s[1..], p);
      }
    }
  }

  lemma {:induction false} FilteringKeepsCounts(s: seq<Handler>, id: string, p: Handler)
    ensures Count(WithoutHandler(s, id), p) == if p.id == id then 0 else Count(s, p)
  {
    if s != [] {
      FilteringKeepsCounts(s[1..], id, p);
    }
  }

  lemma RegisterPluginKeeps(r: Registry, p: Handler)
    requires PluginsIndexed(r) && forall q :: q in r.handlers && q.id == p.id ==> q == p
    ensures PluginsIndexed(RegisterPlugin(r, p))
  {
    if p !in r.handlers {
      RegisterKeepsSort(r, p);
      forall q ensures Count(r.handlers + [p], q) <= 1 {
        CountAppend(r.handlers, [p], q);
      }
    }
  }

  lemma UnregisterPluginKeeps(r: Registry, p: Handler)
    requires PluginsIndexed(r) && forall q :: q in r.handlers && q.id == p.id ==> q == p
    ensures PluginsIndexed(UnregisterPlugin(r, p))
    ensures UnregisterPlugin(r, p).handlers == WithoutHandler(r.handlers, p.id)
  {
    if p in r.handlers {
      RemovingOnceIsFiltering(r.handlers, p);
      UnregisterKeepsSort(r, p.id);
      assert UnregisterPlugin(r, p) == Unregister(r, p.id);
      forall q ensures Count(WithoutHandler(r.handlers, p.id), q) <= 1 {
        FilteringKeepsCounts(r.handlers, p.id, q);
      }
    } else {
      WithoutHandlerAbsent(r.handlers, p.id);
    }
  }

  datatype PluginOp = AddOp(plugin: Handler) | RemoveOp(plugin: Handler)

  function RunPlugins(ops: seq<PluginOp>): Registry {
    if ops == [] then NO_HANDLERS
    else
      var r := RunPlugins(ops[..|ops| - 1]);
      match ops[|ops| - 1]
      case AddOp(p) => RegisterPlugin(r, p)
      case RemoveOp(p) => UnregisterPlugin(r, p)
  }

  /** Plugin objects are told apart by their identity. */
  ghost predicate DistinctObjects(ops: seq<PluginOp>) {
    forall a, b :: 0 <= a < |ops| && 0 <= b < |ops| && ops[a].plugin.id == ops[b].plugin.id
                   ==> ops[a].plugin == ops[b].plugin
  }

  /** The plugin index obeys the same law, in every run, with any number of
      repeated registrations and removals of the same object. */
  lemma {:induction false} RunPluginsIndexed(ops: seq<PluginOp>)
    requires DistinctObjects(ops)
    ensures PluginsIndexed(RunPlugins(ops))
    ensures forall p :: p in RunPlugins(ops).handlers ==> exists a :: 0 <= a < |ops| && ops[a].plugin == p
  {
    if ops != [] {
      var before := ops[..|ops| - 1];
      RunPluginsIndexed(before);
      var r := RunPlugins(before);
      forall p | p in r.handlers ensures exists a :: 0 <= a < |before| && ops[a].plugin == p {
        var a :| 0 <= a < |before| && before[a].plugin == p;
        assert ops[a] == before[a];
      }
      match ops[|ops| - 1]
      case AddOp(p) => RegisterPluginKeeps(r, p);
      case RemoveOp(p) => UnregisterPluginKeeps(r, p);
    }
  }
}
