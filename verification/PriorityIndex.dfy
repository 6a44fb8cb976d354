/** Intent handlers indexed by intent, each list kept by descending priority
    with registration order breaking ties: the index as a value, and its laws. */
module PriorityIndex {
  import opened Basics

  /** A handler process, or a plugin object, known by its identity. */
  datatype Handler = Handler(id: string, instance: string, intents: seq<string>, priority: int)

  type IntentMap = map<string, seq<Handler>>

  // ---------- The host language's sort ----------

  /** Places `h` behind everything of at least its priority. */
  function Insert(h: Handler, s: seq<Handler>): seq<Handler> {
    if s == [] || s[|s| - 1].priority >= h.priority then s + [h]
    else Insert(h, s[..|s| - 1]) + [s[|s| - 1]]
  }

  /** `list.sort(key=priority, reverse=True)`: a stable descending sort. */
  function StableSort(s: seq<Handler>): seq<Handler> {
    if s == [] then [] else Insert(s[|s| - 1], StableSort(s[..|s| - 1]))
  }

  predicate Descending(s: seq<Handler>) {
    forall a, b :: 0 <= a < b < |s| ==> s[a].priority >= s[b].priority
  }

  function HasPriority(p: int): Handler -> bool {
    (h: Handler) => h.priority == p
  }

  function OfPriority(s: seq<Handler>, p: int): seq<Handler> {
    Filter(HasPriority(p), s)
  }

  lemma DescendingSnoc(s: seq<Handler>, h: Handler)
    requires Descending(s) && forall x :: x in s ==> x.priority >= h.priority
    ensures Descending(s + [h])
  {
  }

  lemma DescendingCons(h: Handler, s: seq<Handler>)
    requires Descending(s) && forall x :: x in s ==> x.priority <= h.priority
    ensures Descending([h] + s)
  {
  }

  lemma OfPriorityAppend(s: seq<Handler>, t: seq<Handler>, p: int)
    ensures OfPriority(s + t, p) == OfPriority(s, p) + OfPriority(t, p)
  {
    FilterAppend(HasPriority(p), s, t);
  }

  lemma {:induction false} InsertDescending(h: Handler, s: seq<Handler>)
    requires Descending(s)
    ensures Descending(Insert(h, s))
    ensures forall x :: x in Insert(h, s) <==> x == h || x in s
  {
    if s == [] || s[|s| - 1].priority >= h.priority {
      DescendingSnoc(s, h);
    } else {
      var front := s[..|s| - 1];
      var last := s[|s| - 1];
      assert s == front + [last];
      InsertDescending(h, front);
      DescendingSnoc(Insert(h, front), last);
    }
  }

  lemma {:induction false} InsertStable(h: Handler, s: seq<Handler>, p: int)
    ensures OfPriority(Insert(h, s), p) == OfPriority(s, p) + OfPriority([h], p)
  {
    if s == [] || s[|s| - 1].priority >= h.priority {
      OfPriorityAppend(s, [h], p);
    } else {
      var front := s[..|s| - 1];
      var last := s[|s| - 1];
      assert s == front + [last];
      InsertStable(h, front, p);
      OfPriorityAppend(front, [last], p);
      OfPriorityAppend(Insert(h, front), [last], p);
    }
  }

  /** The sort is descending and keeps, for every priority, the handlers of
      that priority in their original order. */
  lemma {:induction false} SortIsStable(s: seq<Handler>, p: int)
    ensures Descending(StableSort(s)) && OfPriority(StableSort(s), p) == OfPriority(s, p)
    ensures forall x :: x in StableSort(s) <==> x in s
  {
    if s != [] {
      var front := s[..|s| - 1];
      assert s == front + [s[|s| - 1]];
      SortIsStable(front, p);
      InsertDescending(s[|s| - 1], StableSort(front));
      InsertStable(s[|s| - 1], StableSort(front), p);
      OfPriorityAppend(front, [s[|s| - 1]], p);
    }
  }

  lemma FirstHasItsPriority(s: seq<Handler>)
    ensures s != [] ==> s[0] in OfPriority(s, s[0].priority)
  {
  }

  /** Those two properties leave only one possible list. */
  lemma {:induction false} StableSortUnique(a: seq<Handler>, b: seq<Handler>)
    requires Descending(a) && Descending(b)
    requires forall p :: OfPriority(a, p) == OfPriority(b, p)
    ensures a == b
    decreases |a|
  {
    if a == [] {
      FirstHasItsPriority(b);
    } else {
      var p := a[0].priority;
      assert OfPriority(a, p) == OfPriority(b, p);
      assert a[0] in OfPriority(b, p);
      assert b[0].priority >= p;
      assert OfPriority(a, b[0].priority) == OfPriority(b, b[0].priority);
      assert b[0] in OfPriority(a, b[0].priority);
      assert a[0] == b[0] by {
        assert OfPriority(a, p)[0] == a[0] && OfPriority(b, p)[0] == b[0];
      }
      forall q ensures OfPriority(a[1..], q) == OfPriority(b[1..], q) {
        assert OfPriority(a, q) == OfPriority(b, q);
        if q == p {
          assert OfPriority(a, q)[1..] == OfPriority(a[1..], q);
          assert OfPriority(b, q)[1..] == OfPriority(b[1..], q);
        }
      }
      StableSortUnique(a[1..], b[1..]);
    }
  }

  /** Sorting a sorted list with one more handler at the end is sorting the
      unsorted list with it: append-then-sort never drifts. */
  lemma SortAfterAppend(s: seq<Handler>, h: Handler)
    ensures StableSort(StableSort(s) + [h]) == StableSort(s + [h])
  {
    var a := StableSort(StableSort(s) + [h]);
    var b := StableSort(s + [h]);
    SortIsStable(StableSort(s) + [h], 0);
    SortIsStable(s + [h], 0);
    forall p ensures OfPriority(a, p) == OfPriority(b, p) {
      SortIsStable(StableSort(s) + [h], p);
      SortIsStable(s + [h], p);
      SortIsStable(s, p);
      OfPriorityAppend(StableSort(s), [h], p);
      OfPriorityAppend(s, [h], p);
    }
    StableSortUnique(a, b);
  }

  // ---------- Filtering and sorting commute ----------

  function WithoutHandler(s: seq<Handler>, id: string): seq<Handler> {
    Filter((h: Handler) => h.id != id, s)
  }

  lemma {:induction false} WithoutHandlerOfPriority(s: seq<Handler>, id: string, p: int)
    ensures OfPriority(WithoutHandler(s, id), p) == WithoutHandler(OfPriority(s, p), id)
  {
    if s != [] {
      WithoutHandlerOfPriority(s[1..], id, p);
    }
  }

  lemma {:induction false} WithoutHandlerDescending(s: seq<Handler>, id: string)
    requires Descending(s)
    ensures Descending(WithoutHandler(s, id))
  {
    if s != [] {
      WithoutHandlerDescending(s[1..], id);
      if s[0].id != id {
        assert forall x :: x in s[1..] ==> x.priority <= s[0].priority;
        DescendingCons(s[0], WithoutHandler(s[1..], id));
      }
    }
  }

  lemma FilterCommutesWithSort(s: seq<Handler>, id: string)
    ensures WithoutHandler(StableSort(s), id) == StableSort(WithoutHandler(s, id))
  {
    SortIsStable(s, 0);
    WithoutHandlerDescending(StableSort(s), id);
    SortIsStable(WithoutHandler(s, id), 0);
    forall p
      ensures OfPriority(WithoutHandler(StableSort(s), id), p) == OfPriority(StableSort(WithoutHandler(s, id)), p)
    {
      SortIsStable(s, p);
      SortIsStable(WithoutHandler(s, id), p);
      WithoutHandlerOfPriority(StableSort(s), id, p);
      WithoutHandlerOfPriority(s, id, p);
    }
    StableSortUnique(WithoutHandler(StableSort(s), id), StableSort(WithoutHandler(s, id)));
  }

  // ---------- The registry ----------

  /** The live handlers in registration order, and the index. */
  datatype Registry = Registry(handlers: seq<Handler>, index: IntentMap)

  const NO_HANDLERS: Registry := Registry([], map[])

  function At(index: IntentMap, x: string): seq<Handler> {
    if x in index then index[x] else []
  }

  /** Appends and re-sorts under each intent the handler lists. */
  function IndexIntents(index: IntentMap, h: Handler, intents: seq<string>): IntentMap {
    if intents == [] then index
    else
      var m := IndexIntents(index, h, intents[..|intents| - 1]);
      var x := intents[|intents| - 1];
      m[x := StableSort(At(m, x) + [h])]
  }

  function Register(r: Registry, h: Handler): Registry {
    Registry(r.handlers + [h], IndexIntents(r.index, h, h.intents))
  }

  /** Filters the list of one intent; an empty list is not kept. */
  function DropFrom(index: IntentMap, id: string, x: string): IntentMap {
    if x !in index then index
    else if WithoutHandler(index[x], id) == [] then index - {x}
    else index[x := WithoutHandler(index[x], id)]
  }

  function DropIntents(index: IntentMap, id: string, intents: seq<string>): IntentMap {
    if intents == [] then index
    else DropFrom(DropIntents(index, id, intents[..|intents| - 1]), id, intents[|intents| - 1])
  }

  function FindHandler(s: seq<Handler>, id: string): (r: Option<Handler>)
    ensures r.Some? ==> r.value in s && r.value.id == id
    ensures r == None ==> forall h :: h in s ==> h.id != id
  {
    if s == [] then None else if s[0].id == id then Some(s[0]) else FindHandler(s[1..], id)
  }

  function Unregister(r: Registry, id: string): Registry {
    var found := FindHandler(r.handlers, id);
    if found == None then r
    else Registry(WithoutHandler(r.handlers, id), DropIntents(r.index, id, found.value.intents))
  }

  function UnregisterAll(r: Registry, ids: seq<string>): Registry {
    if ids == [] then r else Unregister(UnregisterAll(r, ids[..|ids| - 1]), ids[|ids| - 1])
  }

  function IdsOf(s: seq<Handler>, i: string): seq<string> {
    if s == [] then []
    else (if s[0].instance == i then [s[0].id] else []) + IdsOf(s[1..], i)
  }

  function UnregisterByInstance(r: Registry, i: string): Registry {
    UnregisterAll(r, IdsOf(r.handlers, i))
  }

  // ---------- The index is one sort of the live handlers ----------

  function Repeat(h: Handler, n: nat): seq<Handler> {
    if n == 0 then [] else Repeat(h, n - 1) + [h]
  }

  /** The live handlers of intent `x` in registration order, each as often as
      it lists the intent. */
  function Listed(s: seq<Handler>, x: string): seq<Handler> {
    if s == [] then []
    else Listed(s[..|s| - 1], x) + Repeat(s[|s| - 1], Count(s[|s| - 1].intents, x))
  }

  ghost predicate UniqueHandlers(s: seq<Handler>) {
    forall g, h :: g in s && h in s && g.id == h.id ==> g == h
  }

  /** Every index entry equals one stable sort, from scratch, of the live
      handlers of its intent, and there is an entry just for the intents that
      some live handler lists. */
  ghost predicate IndexIsSort(r: Registry) {
    && UniqueHandlers(r.handlers)
    && (forall x :: At(r.index, x) == StableSort(Listed(r.handlers, x)))
    && (forall x :: x in r.index <==> Listed(r.handlers, x) != [])
  }

  lemma {:induction false} SortEmpty(s: seq<Handler>)
    ensures StableSort(s) == [] <==> s == []
  {
  }

  lemma RepeatOnce(base: seq<Handler>, h: Handler, n: nat)
    ensures base + Repeat(h, n + 1) == base + Repeat(h, n) + [h]
    ensures base + Repeat(h, 0) == base
  {
  }

  /** `base` with as many more entries of `h` as `intents` lists `x`. */
  function Extended(base: seq<Handler>, h: Handler, intents: seq<string>, x: string): seq<Handler> {
    base + Repeat(h, Count(intents, x))
  }

  lemma ExtendedLast(base: seq<Handler>, h: Handler, front: seq<string>, y: string, x: string)
    ensures Extended(base, h, front + [y], x)
            == if x == y then Extended(base, h, front, x) + [h] else Extended(base, h, front, x)
    ensures Extended(base, h, [], x) == base
  {
    CountLast(front, y, x);
    RepeatOnce(base, h, Count(front, x));
  }

  lemma IndexOneMore(m: IntentMap, h: Handler, x: string, listed: seq<Handler>)
    requires At(m, x) == StableSort(listed)
    ensures StableSort(At(m, x) + [h]) == StableSort(listed + [h])
  {
    SortAfterAppend(listed, h);
  }

  lemma IndexIntentsLast(index: IntentMap, h: Handler, front: seq<string>, y: string, x: string)
    ensures At(IndexIntents(index, h, front + [y]), x)
            == if x == y then StableSort(At(IndexIntents(index, h, front), x) + [h])
               else At(IndexIntents(index, h, front), x)
  {
  }

  lemma {:induction false} IndexIntentsAt(index: IntentMap, h: Handler, intents: seq<string>, x: string,
                                          base: seq<Handler>)
    requires At(index, x) == StableSort(base)
    ensures At(IndexIntents(index, h, intents), x) == StableSort(Extended(base, h, intents, x))
  {
    if intents == [] {
      ExtendedLast(base, h, [], x, x);
    } else {
      var front := intents[..|intents| - 1];
      var y := intents[|intents| - 1];
      assert intents == front + [y];
      IndexIntentsAt(index, h, front, x, base);
      IndexIntentsLast(index, h, front, y, x);
      ExtendedLast(base, h, front, y, x);
      IndexOneMore(IndexIntents(index, h, front), h, x, Extended(base, h, front, x));
    }
  }

  lemma CountLast(front: seq<string>, y: string, x: string)
    ensures Count(front + [y], x) == Count(front, x) + (if x == y then 1 else 0)
  {
    CountAppend(front, [y], x);
  }

  lemma IndexIntentsKeysLast(index: IntentMap, h: Handler, front: seq<string>, y: string)
    ensures IndexIntents(index, h, front + [y]).Keys == IndexIntents(index, h, front).Keys + {y}
  {
    assert (front + [y])[..|front|] == front;
  }

  lemma {:induction false} IndexIntentsKeys(index: IntentMap, h: Handler, intents: seq<string>, x: string)
    ensures x in IndexIntents(index, h, intents) <==> x in index || x in intents
  {
    if intents != [] {
      var front, y := intents[..|intents| - 1], intents[|intents| - 1];
      assert intents == front + [y];
      IndexIntentsKeys(index, h, front, x);
      IndexIntentsKeysLast(index, h, front, y);
    }
  }

  lemma RegisterKeepsSort(r: Registry, h: Handler)
    requires IndexIsSort(r) && forall g :: g in r.handlers ==> g.id != h.id
    ensures IndexIsSort(Register(r, h))
  {
    var t := Register(r, h);
    forall x
      ensures At(t.index, x) == StableSort(Listed(t.handlers, x))
      ensures x in t.index <==> Listed(t.handlers, x) != []
    {
      IndexIntentsAt(r.index, h, h.intents, x, Listed(r.handlers, x));
      IndexIntentsKeys(r.index, h, h.intents, x);
      assert t.handlers[..|t.handlers| - 1] == r.handlers;
    }
  }

  lemma {:induction false} WithoutHandlerAppend(s: seq<Handler>, t: seq<Handler>, id: string)
    ensures WithoutHandler(s + t, id) == WithoutHandler(s, id) + WithoutHandler(t, id)
  {
    if s == [] {
      assert s + t == t;
    } else {
      assert (s + t)[1..] == s[1..] + t;
      WithoutHandlerAppend(s[1..], t, id);
    }
  }

  lemma {:induction false} WithoutHandlerRepeat(h: Handler, n: nat, id: string)
    ensures WithoutHandler(Repeat(h, n), id) == if h.id == id then [] else Repeat(h, n)
  {
    if n > 0 {
      WithoutHandlerRepeat(h, n - 1, id);
      WithoutHandlerAppend(Repeat(h, n - 1), [h], id);
      assert WithoutHandler([h], id) == if h.id == id then [] else [h];
    }
  }

  lemma ListedLast(front: seq<Handler>, h: Handler, x: string)
    ensures Listed(front + [h], x) == Listed(front, x) + Repeat(h, Count(h.intents, x))
  {
    assert (front + [h])[..|front|] == front;
  }

  /** Listing the remaining handlers is filtering the list. */
  lemma {:induction false} ListedWithout(s: seq<Handler>, id: string, x: string)
    ensures Listed(WithoutHandler(s, id), x) == WithoutHandler(Listed(s, x), id)
  {
    if s != [] {
      var front, h := s[..|s| - 1], s[|s| - 1];
      assert s == front + [h];
      ListedWithout(front, id, x);
      ListedLast(front, h, x);
      WithoutHandlerAppend(front, [h], id);
      WithoutHandlerAppend(Listed(front, x), Repeat(h, Count(h.intents, x)), id);
      WithoutHandlerRepeat(h, Count(h.intents, x), id);
      if h.id != id {
        ListedLast(WithoutHandler(front, id), h, x);
      } else {
        assert WithoutHandler([h], id) == [] && WithoutHandler(s, id) == WithoutHandler(front, id);
      }
    }
  }

  lemma {:induction false} ListedOnly(s: seq<Handler>, x: string)
    ensures forall h :: h in Listed(s, x) ==> h in s && x in h.intents
  {
    if s != [] {
      var h := s[|s| - 1];
      ListedOnly(s[..|s| - 1], x);
      RepeatOnly(h, Count(h.intents, x));
    }
  }

  lemma {:induction false} RepeatOnly(h: Handler, n: nat)
    ensures forall g :: g in Repeat(h, n) ==> g == h && n > 0
  {
    if n > 0 {
      RepeatOnly(h, n - 1);
    }
  }

  lemma {:induction false} WithoutHandlerTwice(s: seq<Handler>, id: string)
    ensures WithoutHandler(WithoutHandler(s, id), id) == WithoutHandler(s, id)
  {
    if s != [] {
      WithoutHandlerTwice(s[1..], id);
    }
  }

  lemma {:induction false} WithoutHandlerAbsent(s: seq<Handler>, id: string)
    requires forall h :: h in s ==> h.id != id
    ensures WithoutHandler(s, id) == s
  {
    if s != [] {
      WithoutHandlerAbsent(s[1..], id);
    }
  }

  lemma {:induction false} DropIntentsAt(index: IntentMap, id: string, intents: seq<string>, x: string)
    requires x in index ==> index[x] != []
    ensures At(DropIntents(index, id, intents), x)
            == if x in intents then WithoutHandler(At(index, x), id) else At(index, x)
    ensures x in DropIntents(index, id, intents) <==> At(DropIntents(index, id, intents), x) != []
  {
    if intents != [] {
      var front := intents[..|intents| - 1];
      assert intents == front + [intents[|intents| - 1]];
      DropIntentsAt(index, id, front, x);
      WithoutHandlerTwice(At(index, x), id);
    }
  }

  lemma UnregisterKeepsSort(r: Registry, id: string)
    requires IndexIsSort(r)
    ensures IndexIsSort(Unregister(r, id))
    ensures Unregister(r, id).handlers == WithoutHandler(r.handlers, id)
  {
    var found := FindHandler(r.handlers, id);
    if found == None {
      WithoutHandlerAbsent(r.handlers, id);
    } else {
      var t := Unregister(r, id);
      forall x
        ensures At(t.index, x) == StableSort(Listed(t.handlers, x))
        ensures x in t.index <==> Listed(t.handlers, x) != []
      {
        SortEmpty(Listed(r.handlers, x));
        SortEmpty(Listed(t.handlers, x));
        DropIntentsAt(r.index, id, found.value.intents, x);
        ListedWithout(r.handlers, id, x);
        FilterCommutesWithSort(Listed(r.handlers, x), id);
        if x !in found.value.intents {
          ListedOnly(r.handlers, x);
          WithoutHandlerAbsent(Listed(r.handlers, x), id);
        }
      }
    }
  }

  function WithoutInstance(s: seq<Handler>, i: string): seq<Handler> {
    Filter((h: Handler) => h.instance != i, s)
  }

  function WithoutIds(s: seq<Handler>, ids: seq<string>): seq<Handler> {
    Filter((h: Handler) => h.id !in ids, s)
  }

  lemma {:induction false} WithoutIdsStep(s: seq<Handler>, ids: seq<string>, id: string)
    ensures WithoutHandler(WithoutIds(s, ids), id) == WithoutIds(s, ids + [id])
  {
    if s != [] {
      WithoutIdsStep(s[1..], ids, id);
    }
  }

  lemma {:induction false} WithoutNoIds(s: seq<Handler>)
    ensures WithoutIds(s, []) == s
  {
    if s != [] {
      WithoutNoIds(s[1..]);
    }
  }

  lemma {:induction false} UnregisterAllKeepsSort(r: Registry, ids: seq<string>)
    requires IndexIsSort(r)
    ensures IndexIsSort(UnregisterAll(r, ids)) && UnregisterAll(r, ids).handlers == WithoutIds(r.handlers, ids)
  {
    if ids == [] {
      WithoutNoIds(r.handlers);
    } else {
      var front := ids[..|ids| - 1];
      assert ids == front + [ids[|ids| - 1]];
      UnregisterAllKeepsSort(r, front);
      UnregisterKeepsSort(UnregisterAll(r, front), ids[|ids| - 1]);
      WithoutIdsStep(r.handlers, front, ids[|ids| - 1]);
    }
  }

  lemma {:induction false} IdsOfInstance(s: seq<Handler>, i: string)
    ensures forall id :: id in IdsOf(s, i) <==> exists h :: h in s && h.instance == i && h.id == id
  {
    if s != [] {
      IdsOfInstance(s[1..], i);
      assert forall h :: h in s <==> h == s[0] || h in s[1..];
    }
  }

  lemma {:induction false} WithoutIdsIsWithoutInstance(s: seq<Handler>, i: string, ids: seq<string>)
    requires forall h :: h in s ==> (h.id in ids <==> h.instance == i)
    ensures WithoutIds(s, ids) == WithoutInstance(s, i)
  {
    if s != [] {
      WithoutIdsIsWithoutInstance(s[1..], i, ids);
    }
  }

  /** Dropping a disconnected instance leaves exactly the others' handlers, in
      order, with the index of those. */
  lemma UnregisterByInstanceKeepsSort(r: Registry, i: string)
    requires IndexIsSort(r)
    ensures IndexIsSort(UnregisterByInstance(r, i))
    ensures UnregisterByInstance(r, i).handlers == WithoutInstance(r.handlers, i)
  {
    var ids := IdsOf(r.handlers, i);
    UnregisterAllKeepsSort(r, ids);
    IdsOfInstance(r.handlers, i);
    WithoutIdsIsWithoutInstance(r.handlers, i, ids);
  }

  // ---------- Whole runs ----------

  datatype RegistryOp = RegisterOp(handler: Handler) | UnregisterOp(id: string) | UnregisterInstanceOp(instance: string)

  function RegistryStep(r: Registry, op: RegistryOp): Registry {
    match op
    case RegisterOp(h) => Register(r, h)
    case UnregisterOp(id) => Unregister(r, id)
    case UnregisterInstanceOp(i) => UnregisterByInstance(r, i)
  }

  function RunRegistry(ops: seq<RegistryOp>): Registry {
    if ops == [] then NO_HANDLERS else RegistryStep(RunRegistry(ops[..|ops| - 1]), ops[|ops| - 1])
  }

  /** Generated handler ids do not repeat. */
  predicate FreshHandlerIds(ops: seq<RegistryOp>) {
    forall a, b :: 0 <= a < b < |ops| && ops[a].RegisterOp? && ops[b].RegisterOp?
                   ==> ops[a].handler.id != ops[b].handler.id
  }

  /** In every run the maintained index is the from-scratch sort of the live
      handlers. */
  lemma {:induction false} RunIndexIsSort(ops: seq<RegistryOp>)
    requires FreshHandlerIds(ops)
    ensures IndexIsSort(RunRegistry(ops))
    ensures forall h :: h in RunRegistry(ops).handlers
                        ==> exists a :: 0 <= a < |ops| && ops[a].RegisterOp? && ops[a].handler == h
  {
    if ops != [] {
      var before := ops[..|ops| - 1];
      RunIndexIsSort(before);
      var r := RunRegistry(before);
      forall h | h in r.handlers ensures exists a :: 0 <= a < |before| && ops[a].RegisterOp? && ops[a].handler == h {
        var a :| 0 <= a < |before| && before[a].RegisterOp? && before[a].handler == h;
        assert ops[a] == before[a];
      }
      match ops[|ops| - 1]
      case RegisterOp(h) => RegisterKeepsSort(r, h);
      case UnregisterOp(id) => UnregisterKeepsSort(r, id);
      case UnregisterInstanceOp(i) => UnregisterByInstanceKeepsSort(r, i);
    }
  }

  /** The handler an intent is forwarded to, the first of its list, has the
      highest priority of all that list the intent, and was registered before
      any other of that priority. */
  lemma FirstHandlerIsBest(r: Registry, x: string)
    requires IndexIsSort(r) && Listed(r.handlers, x) != []
    ensures x in r.index && r.index[x] != []
    ensures var best := r.index[x][0];
            && best in Listed(r.handlers, x)
            && (forall h :: h in Listed(r.handlers, x) ==> h.priority <= best.priority)
            && OfPriority(Listed(r.handlers, x), best.priority)[..1] == [best]
  {
    var listed := Listed(r.handlers, x);
    SortEmpty(listed);
    assert At(r.index, x) == StableSort(listed);
    var best := r.index[x][0];
    SortIsStable(listed, best.priority);
    assert OfPriority(r.index[x], best.priority)[0] == best;
    forall h | h in listed ensures h.priority <= best.priority {
      assert h in StableSort(listed);
    }
  }
}
