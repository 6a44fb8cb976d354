/** Context, intent and event listeners in three insertion-ordered tables, and
    the reverse index from an instance to the ids of its listeners. */
module Listeners {
  import opened Basics

  datatype Topic =
    | OnContext(contextType: Option<string>, contextChannel: Option<string>)
    | OnIntent(intent: string)
    | OnEvent(eventType: Option<string>, eventChannel: Option<string>)

  /** A listener is stored under its own id. */
  datatype Listener = Listener(id: string, instance: string, topic: Topic)

  type Table = seq<Listener>
  type Index = map<string, set<string>>

  datatype Store = Store(contexts: Table, intents: Table, events: Table, index: Index)

  const EMPTY_STORE: Store := Store([], [], [], map[])

  /** `l` is in one of the three tables. */
  predicate Holds(s: Store, l: Listener) {
    l in s.contexts || l in s.intents || l in s.events
  }

  predicate HasId(t: Table, k: string) {
    exists l :: l in t && l.id == k
  }

  predicate Known(s: Store, k: string) {
    HasId(s.contexts, k) || HasId(s.intents, k) || HasId(s.events, k)
  }

  /** How many listeners of a table have id `k`. */
  function CountId(t: Table, k: string): nat {
    if t == [] then 0 else (if t[0].id == k then 1 else 0) + CountId(t[1..], k)
  }

  /** Assignment to a dictionary key: an existing entry keeps its place. */
  function Put(t: Table, l: Listener): Table {
    if t == [] then [l]
    else if t[0].id == l.id then [l] + t[1..]
    else [t[0]] + Put(t[1..], l)
  }

  function WithoutId(t: Table, k: string): Table {
    Filter((l: Listener) => l.id != k, t)
  }

  function WithoutInstance(t: Table, i: string): Table {
    Filter((l: Listener) => l.instance != i, t)
  }

  function Indexed(index: Index, i: string): set<string> {
    if i in index then index[i] else {}
  }

  function AddToIndex(index: Index, l: Listener): Index {
    index[l.instance := Indexed(index, l.instance) + {l.id}]
  }

  function AddContext(s: Store, l: Listener): Store {
    s.(contexts := Put(s.contexts, l), index := AddToIndex(s.index, l))
  }

  function AddIntent(s: Store, l: Listener): Store {
    s.(intents := Put(s.intents, l), index := AddToIndex(s.index, l))
  }

  function AddEvent(s: Store, l: Listener): Store {
    s.(events := Put(s.events, l), index := AddToIndex(s.index, l))
  }

  /** The listener that removing `k` finds: contexts first, then intents, then
      events. */
  function Found(s: Store, k: string): Option<Listener> {
    var t := if HasId(s.contexts, k) then s.contexts else if HasId(s.intents, k) then s.intents else s.events;
    FirstWithId(t, k)
  }

  function FirstWithId(t: Table, k: string): (r: Option<Listener>)
    ensures r.Some? <==> HasId(t, k)
    ensures r.Some? ==> r.value in t && r.value.id == k
  {
    if t == [] then None
    else if t[0].id == k then Some(t[0])
    else
      var r := FirstWithId(t[1..], k);
      assert t == [t[0]] + t[1..];
      r
  }

  /** The index is left alone when the instance id is empty. */
  function RemoveFromIndex(index: Index, i: string, k: string): Index {
    if i == "" || i !in index then index
    else if index[i] - {k} == {} then index - {i}
    else index[i := index[i] - {k}]
  }

  function Remove(s: Store, k: string): Store {
    var found := Found(s, k);
    if found == None then s
    else
      var index := RemoveFromIndex(s.index, found.value.instance, k);
      if HasId(s.contexts, k) then s.(contexts := WithoutId(s.contexts, k), index := index)
      else if HasId(s.intents, k) then s.(intents := WithoutId(s.intents, k), index := index)
      else s.(events := WithoutId(s.events, k), index := index)
  }

  // ---------- Agreement of the tables with the index ----------

  ghost predicate UniqueIds(s: Store) {
    forall k :: CountId(s.contexts, k) + CountId(s.intents, k) + CountId(s.events, k) <= 1
  }

  ghost predicate Covered(s: Store) {
    forall l :: Holds(s, l) ==> l.id in Indexed(s.index, l.instance)
  }

  ghost predicate NotMisfiled(s: Store) {
    forall i, l :: Holds(s, l) && l.id in Indexed(s.index, i) ==> l.instance == i
  }

  ghost predicate NotStale(s: Store, i: string) {
    forall k :: k in Indexed(s.index, i) ==> Known(s, k)
  }

  /** What fresh listener ids keep: ids are unique over the three tables, every
      listener is indexed under its instance, an indexed id belongs to no other
      instance, and nothing is indexed in vain, except under the empty
      instance id. */
  ghost predicate Kept(s: Store) {
    && UniqueIds(s) && Covered(s) && NotMisfiled(s)
    && (forall i :: i != "" ==> NotStale(s, i))
    && (forall i :: i in s.index ==> s.index[i] != {})
  }

  /** The reverse index says of every instance exactly which ids are its. */
  ghost predicate Agreed(s: Store) {
    Kept(s) && NotStale(s, "")
  }

  /** `k` was never used as a listener id. */
  ghost predicate FreshId(s: Store, k: string) {
    !Known(s, k) && forall i :: k !in Indexed(s.index, i)
  }

  lemma {:induction false} CountIdPositive(t: Table, k: string)
    ensures CountId(t, k) > 0 <==> HasId(t, k)
  {
    if t != [] {
      CountIdPositive(t[1..], k);
      assert forall l :: l in t <==> l == t[0] || l in t[1..];
    }
  }

  lemma {:induction false} PutFresh(t: Table, l: Listener, k: string)
    requires !HasId(t, l.id)
    ensures Put(t, l) == t + [l]
    ensures CountId(Put(t, l), k) == CountId(t, k) + (if k == l.id then 1 else 0)
  {
    if t != [] {
      assert t[0] in t;
      assert forall m :: m in t[1..] ==> m in t;
      PutFresh(t[1..], l, k);
    }
  }

  lemma {:induction false} CountWithoutId(t: Table, j: string, k: string)
    ensures CountId(WithoutId(t, j), k) == if k == j then 0 else CountId(t, k)
  {
    if t != [] {
      CountWithoutId(t[1..], j, k);
    }
  }

  /** The ways to add a listener. */
  ghost predicate Adds(s: Store, l: Listener, t: Store) {
    t == AddContext(s, l) || t == AddIntent(s, l) || t == AddEvent(s, l)
  }

  lemma AddKeepsUnique(s: Store, l: Listener, t: Store)
    requires UniqueIds(s) && !Known(s, l.id) && Adds(s, l, t)
    ensures UniqueIds(t)
    ensures forall m :: Holds(t, m) <==> Holds(s, m) || m == l
  {
    CountIdPositive(s.contexts, l.id);
    CountIdPositive(s.intents, l.id);
    CountIdPositive(s.events, l.id);
    forall k ensures CountId(t.contexts, k) + CountId(t.intents, k) + CountId(t.events, k) <= 1 {
      PutFresh(s.contexts, l, k);
      PutFresh(s.intents, l, k);
      PutFresh(s.events, l, k);
    }
    PutFresh(s.contexts, l, l.id);
    PutFresh(s.intents, l, l.id);
    PutFresh(s.events, l, l.id);
  }

  lemma KnownByHolding(s: Store, k: string)
    ensures Known(s, k) <==> exists l :: Holds(s, l) && l.id == k
  {
  }

  lemma AddKeeps(s: Store, l: Listener, t: Store)
    requires Kept(s) && FreshId(s, l.id) && Adds(s, l, t)
    ensures Kept(t) && (Agreed(s) ==> Agreed(t))
  {
    AddKeepsUnique(s, l, t);
    assert forall i :: Indexed(t.index, i)
                       == if i == l.instance then Indexed(s.index, i) + {l.id} else Indexed(s.index, i);
    forall k | Known(s, k) || k == l.id ensures Known(t, k) {
      KnownByHolding(s, k);
      KnownByHolding(t, k);
      assert Holds(t, l);
    }
    forall i | NotStale(s, i) ensures NotStale(t, i) {
    }
  }

  /** Removing by id removes exactly the listener with that id. */
  lemma RemoveHolds(s: Store, k: string)
    requires UniqueIds(s)
    ensures UniqueIds(Remove(s, k))
    ensures forall m :: Holds(Remove(s, k), m) <==> Holds(s, m) && m.id != k
    ensures Found(s, k).Some? <==> Known(s, k)
    ensures forall m :: Holds(s, m) && m.id == k ==> Found(s, k) == Some(m)
  {
    CountIdPositive(s.contexts, k);
    CountIdPositive(s.intents, k);
    CountIdPositive(s.events, k);
    assert CountId(s.contexts, k) + CountId(s.intents, k) + CountId(s.events, k) <= 1;
    var t := Remove(s, k);
    forall j ensures CountId(t.contexts, j) + CountId(t.intents, j) + CountId(t.events, j) <= 1 {
      assert CountId(s.contexts, j) + CountId(s.intents, j) + CountId(s.events, j) <= 1;
      CountWithoutId(s.contexts, k, j);
      CountWithoutId(s.intents, k, j);
      CountWithoutId(s.events, k, j);
    }
    forall m | Holds(s, m) && m.id == k ensures Found(s, k) == Some(m) {
      UniqueInTable(s.contexts, k, m);
      UniqueInTable(s.intents, k, m);
      UniqueInTable(s.events, k, m);
    }
  }

  lemma {:induction false} UniqueInTable(t: Table, k: string, m: Listener)
    requires CountId(t, k) <= 1
    ensures m in t && m.id == k ==> FirstWithId(t, k) == Some(m)
  {
    if t != [] {
      CountIdPositive(t[1..], k);
      UniqueInTable(t[1..], k, m);
    }
  }

  lemma RemoveIndexed(s: Store, k: string, i: string)
    ensures Indexed(Remove(s, k).index, i)
            == if i != "" && Found(s, k).Some? && i == Found(s, k).value.instance
               then Indexed(s.index, i) - {k} else Indexed(s.index, i)
  {
  }

  lemma RemoveNotStale(s: Store, k: string, i: string)
    requires UniqueIds(s) && NotMisfiled(s) && NotStale(s, i)
    requires i == "" ==> Found(s, k) == None || Found(s, k).value.instance != ""
    ensures NotStale(Remove(s, k), i)
  {
    var t := Remove(s, k);
    RemoveIndexed(s, k, i);
    RemoveHolds(s, k);
    forall j | j in Indexed(t.index, i) ensures Known(t, j) {
      KnownByHolding(s, j);
      KnownByHolding(t, j);
      var m :| Holds(s, m) && m.id == j;
      assert m.instance == i;
    }
  }

  lemma RemoveKeepsCovered(s: Store, k: string)
    requires UniqueIds(s) && Covered(s)
    ensures Covered(Remove(s, k))
  {
    var t := Remove(s, k);
    RemoveHolds(s, k);
    forall l | Holds(t, l) ensures l.id in Indexed(t.index, l.instance) {
      RemoveIndexed(s, k, l.instance);
    }
  }

  lemma RemoveKeepsFiling(s: Store, k: string)
    requires UniqueIds(s) && NotMisfiled(s)
    ensures NotMisfiled(Remove(s, k))
  {
    RemoveHolds(s, k);
    forall i ensures Indexed(Remove(s, k).index, i) <= Indexed(s.index, i) {
      RemoveIndexed(s, k, i);
    }
  }

  lemma RemoveKeepsNoEmptySet(s: Store, k: string)
    requires forall i :: i in s.index ==> s.index[i] != {}
    ensures forall i :: i in Remove(s, k).index ==> Remove(s, k).index[i] != {}
  {
  }

  lemma RemoveKeeps(s: Store, k: string)
    requires Kept(s)
    ensures Kept(Remove(s, k))
  {
    var t := Remove(s, k);
    RemoveHolds(s, k);
    RemoveKeepsCovered(s, k);
    RemoveKeepsFiling(s, k);
    RemoveKeepsNoEmptySet(s, k);
    forall i | i != "" ensures NotStale(t, i) {
      RemoveNotStale(s, k, i);
    }
  }

  /** From full agreement, removing a listener keeps the agreement exactly when
      the listener is unknown or its instance id is not empty: under the empty
      id the index entry stays behind. */
  lemma RemoveKeepsAgreementIff(s: Store, k: string)
    requires Agreed(s)
    ensures Agreed(Remove(s, k)) <==> Found(s, k) == None || Found(s, k).value.instance != ""
  {
    var t := Remove(s, k);
    RemoveKeeps(s, k);
    if Found(s, k) == None || Found(s, k).value.instance != "" {
      RemoveNotStale(s, k, "");
    } else {
      RemoveHolds(s, k);
      RemoveIndexed(s, k, "");
      KnownByHolding(s, k);
      KnownByHolding(t, k);
      assert k in Indexed(t.index, "") && !Known(t, k);
    }
  }

  // ---------- Adding under an id that may be in use ----------

  lemma {:induction false} PutCounts(t: Table, l: Listener, k: string)
    ensures CountId(Put(t, l), k) == if k == l.id && CountId(t, k) == 0 then 1 else CountId(t, k)
  {
    if t != [] && t[0].id != l.id {
      PutCounts(t[1..], l, k);
    }
  }

  lemma {:induction false} PutHolds(t: Table, l: Listener, m: Listener)
    requires CountId(t, l.id) <= 1
    ensures m in Put(t, l) <==> m == l || (m in t && m.id != l.id)
  {
    if t != [] {
      CountIdPositive(t[1..], l.id);
      if t[0].id != l.id {
        PutHolds(t[1..], l, m);
      }
    }
  }

  /** From full agreement, storing a context listener keeps the agreement
      exactly when its id is free or replaces a context listener of the same
      instance. */
  lemma AddKeepsAgreementIff(s: Store, l: Listener)
    requires Agreed(s)
    ensures Agreed(AddContext(s, l))
            <==> !HasId(s.intents, l.id) && !HasId(s.events, l.id)
                 && forall m :: m in s.contexts && m.id == l.id ==> m.instance == l.instance
  {
    var t := AddContext(s, l);
    CountIdPositive(s.contexts, l.id);
    CountIdPositive(s.intents, l.id);
    CountIdPositive(s.events, l.id);
    assert CountId(s.contexts, l.id) + CountId(s.intents, l.id) + CountId(s.events, l.id) <= 1;
    forall m ensures m in t.contexts <==> m == l || (m in s.contexts && m.id != l.id) {
      PutHolds(s.contexts, l, m);
    }
    assert forall i :: Indexed(t.index, i)
                       == if i == l.instance then Indexed(s.index, i) + {l.id} else Indexed(s.index, i);
    if HasId(s.intents, l.id) || HasId(s.events, l.id) {
      PutCounts(s.contexts, l, l.id);
      assert !UniqueIds(t);
    } else if m :| m in s.contexts && m.id == l.id && m.instance != l.instance {
      assert Holds(s, m) && Holds(t, l);
      assert l.id in Indexed(t.index, m.instance);
      assert !NotMisfiled(t);
    } else {
      forall k ensures CountId(t.contexts, k) + CountId(t.intents, k) + CountId(t.events, k) <= 1 {
        assert CountId(s.contexts, k) + CountId(s.intents, k) + CountId(s.events, k) <= 1;
        PutCounts(s.contexts, l, k);
      }
      ReplacingKeepsIndex(s, l, t);
    }
  }

  lemma ReplacingKeepsIndex(s: Store, l: Listener, t: Store)
    requires Agreed(s) && t == AddContext(s, l) && UniqueIds(t)
    requires forall m :: m in t.contexts <==> m == l || (m in s.contexts && m.id != l.id)
    requires !HasId(s.intents, l.id) && !HasId(s.events, l.id)
    requires forall m :: m in s.contexts && m.id == l.id ==> m.instance == l.instance
    ensures Agreed(t)
  {
    assert forall i :: Indexed(t.index, i)
                       == if i == l.instance then Indexed(s.index, i) + {l.id} else Indexed(s.index, i);
    forall k | Known(s, k) || k == l.id ensures Known(t, k) {
      KnownByHolding(s, k);
      KnownByHolding(t, k);
      assert Holds(t, l);
    }
    assert NotStale(s, "");
    forall i ensures NotStale(t, i) {
      assert NotStale(s, i);
    }
    forall i, m | Holds(t, m) && m.id in Indexed(t.index, i) ensures m.instance == i {
      if m == l && l.id in Indexed(s.index, i) {
        assert NotStale(s, i);
        KnownByHolding(s, l.id);
        var n :| Holds(s, n) && n.id == l.id;
        assert n.instance == i;
      }
    }
  }

  // ---------- Removing everything an instance registered ----------

  function WithoutIds(t: Table, ks: set<string>): Table {
    Filter((l: Listener) => l.id !in ks, t)
  }

  /** `remove_listeners_for_instance`: every table filtered by instance. */
  function RemoveInstance(s: Store, i: string): Store {
    Store(WithoutInstance(s.contexts, i), WithoutInstance(s.intents, i), WithoutInstance(s.events, i),
          if i == "" then s.index else s.index - {i})
  }

  /** The store after removing the listeners `done` of instance `i`. */
  ghost function Partial(s: Store, i: string, done: set<string>): Store {
    Store(WithoutIds(s.contexts, done), WithoutIds(s.intents, done), WithoutIds(s.events, done),
          if i == "" || i !in s.index then s.index
          else if s.index[i] - done == {} then s.index - {i}
          else s.index[i := s.index[i] - done])
  }

  lemma {:induction false} WithoutIdsStep(t: Table, done: set<string>, k: string)
    ensures WithoutId(WithoutIds(t, done), k) == WithoutIds(t, done + {k})
    ensures !HasId(t, k) ==> WithoutIds(t, done + {k}) == WithoutIds(t, done)
    ensures CountId(WithoutIds(t, done), k) == if k in done then 0 else CountId(t, k)
  {
    if t != [] {
      WithoutIdsStep(t[1..], done, k);
      assert t == [t[0]] + t[1..];
    }
  }

  lemma {:induction false} WithoutIdsIsWithoutInstance(t: Table, i: string, ks: set<string>)
    requires forall l :: l in t ==> (l.id in ks <==> l.instance == i)
    ensures WithoutIds(t, ks) == WithoutInstance(t, i)
  {
    if t != [] {
      WithoutIdsIsWithoutInstance(t[1..], i, ks);
    }
  }

  lemma {:induction false} WithoutNone(t: Table)
    ensures WithoutIds(t, {}) == t
  {
    if t != [] {
      WithoutNone(t[1..]);
    }
  }

  lemma PartialFound(s: Store, i: string, done: set<string>, k: string)
    requires Kept(s) && k in Indexed(s.index, i) && k !in done
    ensures Found(Partial(s, i, done), k).Some? <==> Known(s, k)
    ensures Found(Partial(s, i, done), k).Some? ==> Found(Partial(s, i, done), k).value.instance == i
    ensures HasId(Partial(s, i, done).contexts, k) <==> HasId(s.contexts, k)
    ensures HasId(Partial(s, i, done).intents, k) <==> HasId(s.intents, k)
    ensures HasId(Partial(s, i, done).events, k) <==> HasId(s.events, k)
  {
  }

  /** Removing one id from a table that may hold it. */
  lemma TableStep(t: Table, done: set<string>, k: string)
    ensures (if HasId(t, k) then WithoutId(WithoutIds(t, done), k) else WithoutIds(t, done))
            == WithoutIds(t, done + {k})
  {
    WithoutIdsStep(t, done, k);
  }

  lemma IndexStep(s: Store, i: string, done: set<string>, k: string)
    requires Kept(s) && k in Indexed(s.index, i) && k !in done
    ensures (if Known(s, k) then RemoveFromIndex(Partial(s, i, done).index, i, k) else Partial(s, i, done).index)
            == Partial(s, i, done + {k}).index
  {
    if i != "" {
      assert NotStale(s, i);
      assert s.index[i] - done - {k} == s.index[i] - (done + {k});
    }
  }

  lemma PartialStep(s: Store, i: string, done: set<string>, k: string)
    requires Kept(s) && k in Indexed(s.index, i) && k !in done
    ensures Remove(Partial(s, i, done), k) == Partial(s, i, done + {k})
  {
    PartialFound(s, i, done, k);
    AtMostOneTable(s, k);
    TableStep(s.contexts, done, k);
    TableStep(s.intents, done, k);
    TableStep(s.events, done, k);
    IndexStep(s, i, done, k);
  }

  lemma AtMostOneTable(s: Store, k: string)
    requires UniqueIds(s)
    ensures HasId(s.contexts, k) ==> !HasId(s.intents, k) && !HasId(s.events, k)
    ensures HasId(s.intents, k) ==> !HasId(s.events, k)
  {
    CountIdPositive(s.contexts, k);
    CountIdPositive(s.intents, k);
    CountIdPositive(s.events, k);
    assert CountId(s.contexts, k) + CountId(s.intents, k) + CountId(s.events, k) <= 1;
  }

  lemma PartialWhole(s: Store, i: string)
    requires Kept(s)
    ensures Partial(s, i, Indexed(s.index, i)) == RemoveInstance(s, i)
  {
    var ks := Indexed(s.index, i);
    forall l | Holds(s, l) ensures l.id in ks <==> l.instance == i {
    }
    WithoutIdsIsWithoutInstance(s.contexts, i, ks);
    WithoutIdsIsWithoutInstance(s.intents, i, ks);
    WithoutIdsIsWithoutInstance(s.events, i, ks);
    if i !in s.index {
      assert s.index - {i} == s.index;
    } else {
      assert s.index[i] - ks == {};
    }
  }

  lemma PartialNone(s: Store, i: string)
    requires Kept(s)
    ensures Partial(s, i, {}) == s
  {
    WithoutNone(s.contexts);
    WithoutNone(s.intents);
    WithoutNone(s.events);
    if i in s.index {
      assert s.index[i] - {} == s.index[i];
    }
  }

  /** Removing the ids of a list one by one. */
  function RemoveEach(s: Store, ks: seq<string>): Store {
    if ks == [] then s else Remove(RemoveEach(s, ks[..|ks| - 1]), ks[|ks| - 1])
  }

  lemma IdsWithLast(front: seq<string>, last: string)
    ensures (set k | k in front + [last]) == (set k | k in front) + {last}
  {
  }

  lemma {:induction false} RemoveEachIsPartial(s: Store, i: string, ks: seq<string>)
    requires Kept(s)
    requires forall a :: 0 <= a < |ks| ==> ks[a] in Indexed(s.index, i)
    requires forall a, b :: 0 <= a < b < |ks| ==> ks[a] != ks[b]
    ensures RemoveEach(s, ks) == Partial(s, i, set k | k in ks)
  {
    if ks == [] {
      PartialNone(s, i);
      assert (set k | k in ks) == {};
    } else {
      var front := ks[..|ks| - 1];
      RemoveEachIsPartial(s, i, front);
      assert ks == front + [ks[|ks| - 1]];
      IdsWithLast(front, ks[|ks| - 1]);
      PartialStep(s, i, (set k | k in front), ks[|ks| - 1]);
    }
  }

  /** In whatever order the ids of an instance are removed, every table ends
      filtered by instance. */
  lemma RemovalOrderIsIrrelevant(s: Store, i: string, ks: seq<string>)
    requires Kept(s)
    requires forall a, b :: 0 <= a < b < |ks| ==> ks[a] != ks[b]
    requires (set k | k in ks) == Indexed(s.index, i)
    ensures RemoveEach(s, ks) == RemoveInstance(s, i)
  {
    forall a | 0 <= a < |ks| ensures ks[a] in Indexed(s.index, i) {
      assert ks[a] in (set k | k in ks);
    }
    RemoveEachIsPartial(s, i, ks);
    PartialWhole(s, i);
  }

  lemma {:induction false} RemoveEachKeeps(s: Store, ks: seq<string>)
    requires Kept(s)
    ensures Kept(RemoveEach(s, ks))
  {
    if ks != [] {
      RemoveEachKeeps(s, ks[..|ks| - 1]);
      RemoveKeeps(RemoveEach(s, ks[..|ks| - 1]), ks[|ks| - 1]);
    }
  }

  /** Afterwards nothing of the instance is left, and everything of the others
      is. */
  lemma RemoveInstanceIsolates(s: Store, i: string)
    requires Kept(s)
    ensures Kept(RemoveInstance(s, i))
    ensures forall l :: Holds(RemoveInstance(s, i), l) <==> Holds(s, l) && l.instance != i
    ensures forall j :: j != i ==> Indexed(RemoveInstance(s, i).index, j) == Indexed(s.index, j)
    ensures i != "" ==> i !in RemoveInstance(s, i).index
  {
    var ks := Enumerate(Indexed(s.index, i));
    RemovalOrderIsIrrelevant(s, i, ks);
    RemoveEachKeeps(s, ks);
  }

  ghost function Enumerate(ids: set<string>): (ks: seq<string>)
    ensures forall a, b :: 0 <= a < b < |ks| ==> ks[a] != ks[b]
    ensures (set k | k in ks) == ids
  {
    if ids == {} then []
    else
      var k :| k in ids;
      var rest := Enumerate(ids - {k});
      assert forall j :: j in rest <==> j in ids - {k} by {
        assert forall j :: j in rest <==> j in (set m | m in rest);
      }
      [k] + rest
  }

  // ---------- Whole runs ----------

  datatype StoreOp =
    | AddContextOp(listener: Listener)
    | AddIntentOp(listener: Listener)
    | AddEventOp(listener: Listener)
    | RemoveOp(id: string)
    | RemoveInstanceOp(instance: string)

  function StoreStep(s: Store, op: StoreOp): Store {
    match op
    case AddContextOp(l) => AddContext(s, l)
    case AddIntentOp(l) => AddIntent(s, l)
    case AddEventOp(l) => AddEvent(s, l)
    case RemoveOp(k) => Remove(s, k)
    case RemoveInstanceOp(i) => RemoveInstance(s, i)
  }

  function RunStore(ops: seq<StoreOp>): Store {
    if ops == [] then EMPTY_STORE else StoreStep(RunStore(ops[..|ops| - 1]), ops[|ops| - 1])
  }

  predicate IsAdd(op: StoreOp) {
    op.AddContextOp? || op.AddIntentOp? || op.AddEventOp?
  }

  /** No two additions use the same id. */
  predicate FreshIds(ops: seq<StoreOp>) {
    forall a, b :: 0 <= a < b < |ops| && IsAdd(ops[a]) && IsAdd(ops[b]) ==> ops[a].listener.id != ops[b].listener.id
  }

  predicate AddedBy(ops: seq<StoreOp>, k: string) {
    exists a :: 0 <= a < |ops| && IsAdd(ops[a]) && ops[a].listener.id == k
  }

  /** Every known or indexed id was added by the run. */
  ghost predicate IdsAdded(s: Store, ops: seq<StoreOp>) {
    && (forall k :: Known(s, k) ==> AddedBy(ops, k))
    && (forall i, k :: k in Indexed(s.index, i) ==> AddedBy(ops, k))
  }

  /** No listener was registered under the empty instance id. */
  ghost predicate AllNamed(s: Store) {
    forall l :: Holds(s, l) ==> l.instance != ""
  }

  lemma StoreStepKeeps(s: Store, op: StoreOp)
    requires Kept(s) && (IsAdd(op) ==> FreshId(s, op.listener.id))
    ensures Kept(StoreStep(s, op))
    ensures forall l :: Holds(StoreStep(s, op), l) ==> Holds(s, l) || (IsAdd(op) && l == op.listener)
    ensures forall i, k :: k in Indexed(StoreStep(s, op).index, i)
                           ==> k in Indexed(s.index, i) || (IsAdd(op) && k == op.listener.id)
  {
    var t := StoreStep(s, op);
    match op
    case RemoveOp(k) =>
      RemoveKeeps(s, k);
      RemoveHolds(s, k);
      forall i ensures Indexed(t.index, i) <= Indexed(s.index, i) {
        RemoveIndexed(s, k, i);
      }
    case RemoveInstanceOp(i) => RemoveInstanceIsolates(s, i);
    case _ =>
      AddKeeps(s, op.listener, t);
      AddKeepsUnique(s, op.listener, t);
  }

  lemma StoreStepAgrees(s: Store, op: StoreOp)
    requires Agreed(s) && AllNamed(s)
    requires IsAdd(op) ==> FreshId(s, op.listener.id) && op.listener.instance != ""
    ensures Agreed(StoreStep(s, op))
  {
    match op
    case RemoveOp(k) =>
      RemoveKeepsAgreementIff(s, k);
      RemoveHolds(s, k);
      KnownByHolding(s, k);
    case RemoveInstanceOp(i) =>
      RemoveInstanceIsolates(s, i);
      forall k ensures k !in Indexed(s.index, "") {
        KnownByHolding(s, k);
      }
    case _ => AddKeeps(s, op.listener, StoreStep(s, op));
  }

  lemma {:induction false} RunKeepsStore(ops: seq<StoreOp>)
    requires FreshIds(ops)
    ensures Kept(RunStore(ops)) && IdsAdded(RunStore(ops), ops)
    ensures (forall a :: 0 <= a < |ops| && IsAdd(ops[a]) ==> ops[a].listener.instance != "")
            ==> Agreed(RunStore(ops)) && AllNamed(RunStore(ops))
  {
    if ops != [] {
      var before := ops[..|ops| - 1];
      var op := ops[|ops| - 1];
      var s := RunStore(before);
      RunKeepsStore(before);
      forall k | AddedBy(before, k) ensures AddedBy(ops, k) {
        var a :| 0 <= a < |before| && IsAdd(before[a]) && before[a].listener.id == k;
        assert ops[a] == before[a];
      }
      if IsAdd(op) {
        assert ops[|ops| - 1].listener.id == op.listener.id;
        assert AddedBy(ops, op.listener.id);
        assert !AddedBy(before, op.listener.id);
      }
      StoreStepKeeps(s, op);
      assert RunStore(ops) == StoreStep(s, op);
      if forall a :: 0 <= a < |ops| && IsAdd(ops[a]) ==> ops[a].listener.instance != "" {
        StoreStepAgrees(s, op);
      }
      forall k | Known(RunStore(ops), k) ensures AddedBy(ops, k) {
        KnownByHolding(s, k);
        KnownByHolding(RunStore(ops), k);
      }
    }
  }

  // ---------- Queries ----------

  /** `typ` is a requested context type: a listener without one hears all. */
  function OfContextType(t: Table, typ: Option<string>): Table {
    Filter((l: Listener) =>
             l.topic.OnContext? && (typ == None || l.topic.contextType == typ || l.topic.contextType == None), t)
  }

  function OnChannel(t: Table, channel: Option<string>, includeGlobal: bool): Table {
    Filter((l: Listener) =>
             l.topic.OnContext? && (channel == None || l.topic.contextChannel == channel
                                    || (includeGlobal && l.topic.contextChannel == None)), t)
  }

  function ContextListenersFor(t: Table, typ: Option<string>, channel: Option<string>, includeGlobal: bool): Table {
    OnChannel(OfContextType(t, typ), channel, includeGlobal)
  }

  function IntentListenersFor(t: Table, intent: string): Table {
    Filter((l: Listener) => l.topic == OnIntent(intent), t)
  }

  /** The listener store object. */
  class ListenerStore {
    var contextListeners: Table
    var intentListeners: Table
    var eventListeners: Table
    var listenersByInstance: Index

    function View(): Store
      reads this
    {
      Store(contextListeners, intentListeners, eventListeners, listenersByInstance)
    }

    constructor ()
      ensures View() == EMPTY_STORE
    {
      contextListeners, intentListeners, eventListeners, listenersByInstance := [], [], [], map[];
    }

    method RegisterInstance(id: string, instance: string)
      modifies this`listenersByInstance
      ensures listenersByInstance
              == old(listenersByInstance)[instance := Indexed(old(listenersByInstance), instance) + {id}]
    {
      if instance !in listenersByInstance {
        listenersByInstance := listenersByInstance[instance := {}];
      }
      listenersByInstance := listenersByInstance[instance := listenersByInstance[instance] + {id}];
    }

    method AddContextListener(id: string, instance: string, typ: Option<string>, channel: Option<string>)
      returns (l: Listener)
      modifies this
      ensures l == Listener(id, instance, OnContext(typ, channel)) && View() == AddContext(old(View()), l)
    {
      l := Listener(id, instance, OnContext(typ, channel));
      RegisterInstance(id, instance);
      contextListeners := Put(contextListeners, l);
    }

    method AddIntentListener(id: string, instance: string, intent: string) returns (l: Listener)
      modifies this
      ensures l == Listener(id, instance, OnIntent(intent)) && View() == AddIntent(old(View()), l)
    {
      l := Listener(id, instance, OnIntent(intent));
      RegisterInstance(id, instance);
      intentListeners := Put(intentListeners, l);
    }

    method AddEventListener(id: string, instance: string, typ: Option<string>, channel: Option<string>)
      returns (l: Listener)
      modifies this
      ensures l == Listener(id, instance, OnEvent(typ, channel)) && View() == AddEvent(old(View()), l)
    {
      l := Listener(id, instance, OnEvent(typ, channel));
      RegisterInstance(id, instance);
      eventListeners := Put(eventListeners, l);
    }

    method RemoveListener(k: string) returns (r: Option<Listener>)
      modifies this
      ensures r == Found(old(View()), k) && View() == Remove(old(View()), k)
    {
      if HasId(contextListeners, k) {
        r := FirstWithId(contextListeners, k);
        contextListeners := WithoutId(contextListeners, k);
      } else if HasId(intentListeners, k) {
        r := FirstWithId(intentListeners, k);
        intentListeners := WithoutId(intentListeners, k);
      } else if HasId(eventListeners, k) {
        r := FirstWithId(eventListeners, k);
        eventListeners := WithoutId(eventListeners, k);
      } else {
        return None;
      }
      var i := r.value.instance;
      if i != "" && i in listenersByInstance {
        listenersByInstance := listenersByInstance[i := listenersByInstance[i] - {k}];
        if listenersByInstance[i] == {} {
          listenersByInstance := listenersByInstance - {i};
          assert listenersByInstance == old(listenersByInstance) - {i};
        }
      }
    }

    method RemoveListenersForInstance(i: string)
      requires Kept(View())
      modifies this
      ensures View() == RemoveInstance(old(View()), i)
    {
      ghost var before := View();
      PartialNone(before, i);
      PartialWhole(before, i);
      if i !in listenersByInstance || listenersByInstance[i] == {} {
        return;
      }
      var todo := listenersByInstance[i];
      ghost var done: set<string> := {};
      while todo != {}
        invariant done + todo == Indexed(before.index, i) && done !! todo
        invariant View() == Partial(before, i, done)
      {
        var k :| k in todo;
        PartialStep(before, i, done, k);
        var _ := RemoveListener(k);
        todo, done := todo - {k}, done + {k};
      }
      assert done == Indexed(before.index, i);
    }

    method GetContextListeners(typ: Option<string>, channel: Option<string>, includeGlobal: bool) returns (r: Table)
      ensures r == ContextListenersFor(contextListeners, typ, channel, includeGlobal)
      ensures forall l :: l in r <==> l in contextListeners && l.topic.OnContext?
                                      && (typ == None || l.topic.contextType in {typ, None})
                                      && (channel == None || l.topic.contextChannel == channel
                                          || (includeGlobal && l.topic.contextChannel == None))
    {
      var listeners := OfContextType(contextListeners, typ);
      if channel == None {
        OnAnyChannel(listeners, includeGlobal);
        return listeners;
      }
      r := [];
      for k := 0 to |listeners|
        invariant r == OnChannel(listeners[..k], channel, includeGlobal)
      {
        var l := listeners[k];
        assert l in listeners;
        if l.topic.contextChannel == channel {
          r := r + [l];
        } else if includeGlobal && l.topic.contextChannel == None {
          r := r + [l];
        }
        OnChannelAppend(listeners[..k], l, channel, includeGlobal);
        assert listeners[..k + 1] == listeners[..k] + [l];
      }
      assert listeners[..|listeners|] == listeners;
    }

    method GetIntentListeners(intent: string) returns (r: Table)
      ensures r == IntentListenersFor(intentListeners, intent)
      ensures forall l :: l in r <==> l in intentListeners && l.topic == OnIntent(intent)
    {
      r := IntentListenersFor(intentListeners, intent);
    }
  }

  lemma {:induction false} OnAnyChannel(t: Table, includeGlobal: bool)
    requires forall l :: l in t ==> l.topic.OnContext?
    ensures OnChannel(t, None, includeGlobal) == t
  {
    if t != [] {
      OnAnyChannel(t[1..], includeGlobal);
    }
  }

  lemma {:induction false} OnChannelAppend(t: Table, l: Listener, channel: Option<string>, includeGlobal: bool)
    ensures OnChannel(t + [l], channel, includeGlobal)
            == OnChannel(t, channel, includeGlobal) + OnChannel([l], channel, includeGlobal)
  {
    if t == [] {
      assert t + [l] == [l];
    } else {
      assert (t + [l])[1..] == t[1..] + [l];
      OnChannelAppend(t[1..], l, channel, includeGlobal);
    }
  }
}
