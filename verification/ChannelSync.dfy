/** Merging a bridge's channel state, listed most recent first, into the
    context cache, and the notifications that brings members up to date. */
module ChannelSync {
  import opened Basics
  import opened Channels
  import opened Listeners
  import opened ContextHistory
  import opened ChannelRuns

  type Cache = map<string, Context>

  datatype Send = Send(to: Instance, context: Context)

  /** What one channel's processing yields: the cache to store and the queue. */
  datatype Outcome = Outcome(cache: Cache, queue: seq<Send>)

  function Lookup(m: Cache, t: string): Option<Context> {
    if t in m then Some(m[t]) else None
  }

  /** One send per member's listener that names a context type. */
  function TypedSends(ls: Table, members: set<Instance>, ctx: Context): seq<Send> {
    if ls == [] then []
    else
      var l := ls[0];
      (if l.topic.OnContext? && l.topic.contextType != None && l.instance in members
       then [Send(l.instance, ctx)] else [])
      + TypedSends(ls[1..], members, ctx)
  }

  /** One send per member's listener, on this channel or global, that names no
      context type. */
  function UntypedSends(ls: Table, c: ChannelId, members: set<Instance>, ctx: Context): seq<Send> {
    if ls == [] then []
    else
      var l := ls[0];
      (if l.topic.OnContext? && l.topic.contextType == None && l.topic.contextChannel in {None, Some(c)}
          && l.instance in members then [Send(l.instance, ctx)] else [])
      + UntypedSends(ls[1..], c, members, ctx)
  }

  /** Takes one listed context into the cache. */
  function Absorb(ls: Table, c: ChannelId, members: set<Instance>, o: Outcome, ctx: Context): Outcome {
    if Lookup(o.cache, ctx.typ) == Some(ctx) then o
    else Outcome(o.cache[ctx.typ := ctx],
                 o.queue + TypedSends(ContextListenersFor(ls, Some(ctx.typ), Some(c), true), members, ctx))
  }

  /** Takes a whole list in, last entry first. */
  function AbsorbAll(ls: Table, c: ChannelId, members: set<Instance>, cache: Cache, incoming: seq<Context>): Outcome {
    if incoming == [] then Outcome(cache, [])
    else Absorb(ls, c, members, AbsorbAll(ls, c, members, cache, incoming[1..]), incoming[0])
  }

  /** The known-channel branch. */
  function Merge(ls: Table, c: ChannelId, members: set<Instance>, cache: Cache, incoming: seq<Context>): Outcome
    requires incoming != []
  {
    var o := AbsorbAll(ls, c, members, cache, incoming);
    if Lookup(o.cache, LAST_CONTEXT_KEY) == Some(incoming[0]) then o
    else Outcome(o.cache[LAST_CONTEXT_KEY := incoming[0]], o.queue + UntypedSends(ls, c, members, incoming[0]))
  }

  /** Stores a list first entry first, later entries overwriting earlier ones. */
  function StoreAll(cache: Cache, incoming: seq<Context>): Cache {
    if incoming == [] then cache
    else
      var front := incoming[..|incoming| - 1];
      var ctx := incoming[|incoming| - 1];
      StoreAll(cache, front)[ctx.typ := ctx]
  }

  /** The unknown-channel branch: stores without notifying anyone. */
  function StoreUnknown(incoming: seq<Context>): Cache
    requires incoming != []
  {
    StoreAll(map[], incoming)[LAST_CONTEXT_KEY := incoming[0]]
  }

  predicate KnownChannel(s: State, c: ChannelId) {
    c in s.channels || c in s.contexts
  }

  function MemberSet(s: State, c: ChannelId): set<Instance> {
    set i | i in Members(s, c)
  }

  function Process(s: State, ls: Table, c: ChannelId, incoming: seq<Context>): Outcome
    requires incoming != []
  {
    if KnownChannel(s, c) then Merge(ls, c, MemberSet(s, c), Contexts(s, c), incoming)
    else Outcome(StoreUnknown(incoming), [])
  }

  // ---------- The update itself ----------

  lemma {:induction false} TypedSendsAppend(ls: Table, l: Listener, members: set<Instance>, ctx: Context)
    ensures TypedSends(ls + [l], members, ctx) == TypedSends(ls, members, ctx) + TypedSends([l], members, ctx)
  {
    if ls == [] {
      assert ls + [l] == [l];
    } else {
      assert (ls + [l])[1..] == ls[1..] + [l];
      TypedSendsAppend(ls[1..], l, members, ctx);
    }
  }

  lemma {:induction false} UntypedSendsAppend(ls: Table, l: Listener, c: ChannelId, members: set<Instance>,
                                              ctx: Context)
    ensures UntypedSends(ls + [l], c, members, ctx)
            == UntypedSends(ls, c, members, ctx) + UntypedSends([l], c, members, ctx)
  {
    if ls == [] {
      assert ls + [l] == [l];
    } else {
      assert (ls + [l])[1..] == ls[1..] + [l];
      UntypedSendsAppend(ls[1..], l, c, members, ctx);
    }
  }

  method CollectTyped(listeners: Table, members: set<Instance>, ctx: Context, queue: seq<Send>) returns (r: seq<Send>)
    requires forall l :: l in listeners ==> l.topic.OnContext?
    ensures r == queue + TypedSends(listeners, members, ctx)
  {
    r := queue;
    for k := 0 to |listeners|
      invariant r == queue + TypedSends(listeners[..k], members, ctx)
    {
      var l := listeners[k];
      TypedSendsAppend(listeners[..k], l, members, ctx);
      assert listeners[..k + 1] == listeners[..k] + [l];
      assert l in listeners;
      if l.topic.contextType == None {
        continue;
      }
      if l.instance !in members {
        continue;
      }
      r := r + [Send(l.instance, ctx)];
    }
    assert listeners[..|listeners|] == listeners;
  }

  method CollectUntyped(listeners: Table, c: ChannelId, members: set<Instance>, ctx: Context, queue: seq<Send>)
    returns (r: seq<Send>)
    ensures r == queue + UntypedSends(listeners, c, members, ctx)
  {
    r := queue;
    for k := 0 to |listeners|
      invariant r == queue + UntypedSends(listeners[..k], c, members, ctx)
    {
      var l := listeners[k];
      UntypedSendsAppend(listeners[..k], l, c, members, ctx);
      assert listeners[..k + 1] == listeners[..k] + [l];
      if !l.topic.OnContext? || l.topic.contextType != None {
        continue;
      }
      if l.topic.contextChannel !in {None, Some(c)} {
        continue;
      }
      if l.instance !in members {
        continue;
      }
      r := r + [Send(l.instance, ctx)];
    }
    assert listeners[..|listeners|] == listeners;
  }

  /** The known-channel part of `_process_channel`. */
  method MergeContexts(store: ListenerStore, c: ChannelId, members: set<Instance>, cache: Cache, incoming: seq<Context>)
    returns (existing: Cache, queue: seq<Send>)
    requires incoming != []
    ensures Outcome(existing, queue) == Merge(store.contextListeners, c, members, cache, incoming)
  {
    existing, queue := cache, [];
    for k := |incoming| downto 0
      invariant Outcome(existing, queue) == AbsorbAll(store.contextListeners, c, members, cache, incoming[k..])
    {
      var ctx := incoming[k];
      assert incoming[k..][1..] == incoming[k + 1..];
      if ctx.typ !in existing || existing[ctx.typ] != ctx {
        var listeners := store.GetContextListeners(Some(ctx.typ), Some(c), true);
        queue := CollectTyped(listeners, members, ctx, queue);
        existing := existing[ctx.typ := ctx];
      }
    }
    assert incoming[0..] == incoming;
    var mostRecent := incoming[0];
    if LAST_CONTEXT_KEY !in existing || existing[LAST_CONTEXT_KEY] != mostRecent {
      queue := CollectUntyped(store.contextListeners, c, members, mostRecent, queue);
      existing := existing[LAST_CONTEXT_KEY := mostRecent];
    }
  }

  /** The unknown-channel part of `_process_channel`. */
  method StoreContexts(incoming: seq<Context>) returns (stored: Cache)
    requires incoming != []
    ensures stored == StoreUnknown(incoming)
  {
    stored := map[];
    for k := 0 to |incoming|
      invariant stored == StoreAll(map[], incoming[..k])
    {
      assert incoming[..k + 1][..k] == incoming[..k];
      stored := stored[incoming[k].typ := incoming[k]];
    }
    assert incoming[..|incoming|] == incoming;
    stored := stored[LAST_CONTEXT_KEY := incoming[0]];
  }

  /** `_process_channel`. */
  method ProcessChannel(manager: ChannelManager, store: ListenerStore, c: ChannelId, incoming: seq<Context>)
    returns (queue: seq<Send>)
    requires manager.Valid() && incoming != []
    modifies manager
    ensures manager.Valid() && manager.channels == old(manager.channels)
    ensures var o := Process(old(manager.View()), store.contextListeners, c, incoming);
            && queue == o.queue
            && manager.View() == old(manager.View()).(contexts := old(manager.View()).contexts[c := o.cache])
  {
    var existing := if c in manager.channelContexts then manager.channelContexts[c] else map[];
    var memberList := manager.GetChannelMembers(c);
    if c !in manager.channels && c !in manager.channelContexts {
      var stored := StoreContexts(incoming);
      manager.channelContexts := manager.channelContexts[c := stored];
      return [];
    }
    existing, queue := MergeContexts(store, c, (set i | i in memberList), existing, incoming);
    manager.channelContexts := manager.channelContexts[c := existing];
  }

  /** The lists of an update that hold anything, in order. */
  function ApplyAll(s: State, ls: Table, update: seq<(ChannelId, seq<Context>)>): (State, seq<Send>) {
    if update == [] then (s, [])
    else
      var (t, sent) := ApplyAll(s, ls, update[..|update| - 1]);
      var (c, incoming) := update[|update| - 1];
      if incoming == [] then (t, sent)
      else
        var o := Process(t, ls, c, incoming);
        (t.(contexts := t.contexts[c := o.cache]), sent + o.queue)
  }

  /** `_apply_channels_state`: every channel in turn; the sends go out in queue
      order. */
  method ApplyChannelsState(manager: ChannelManager, store: ListenerStore, update: seq<(ChannelId, seq<Context>)>)
    returns (sent: seq<Send>)
    requires manager.Valid()
    modifies manager
    ensures manager.Valid()
    ensures (manager.View(), sent) == ApplyAll(old(manager.View()), store.contextListeners, update)
  {
    sent := [];
    for k := 0 to |update|
      invariant manager.Valid()
      invariant store.contextListeners == old(store.contextListeners)
      invariant (manager.View(), sent) == ApplyAll(old(manager.View()), store.contextListeners, update[..k])
    {
      assert update[..k + 1][..k] == update[..k];
      var (c, incoming) := update[k];
      if incoming == [] {
        continue;
      }
      var queue := ProcessChannel(manager, store, c, incoming);
      sent := sent + queue;
    }
    assert update[..|update|] == update;
  }

  /** A dictionary names each channel once. */
  predicate DistinctChannels(update: seq<(ChannelId, seq<Context>)>) {
    forall a, b :: 0 <= a < b < |update| ==> update[a].0 != update[b].0
  }

  /** What a channel's processing looks at. */
  lemma ProcessLooksAtItsChannel(s: State, t: State, ls: Table, c: ChannelId, incoming: seq<Context>)
    requires incoming != [] && t == s.(contexts := t.contexts)
    requires c in t.contexts <==> c in s.contexts
    requires Contexts(t, c) == Contexts(s, c)
    ensures Process(t, ls, c, incoming) == Process(s, ls, c, incoming)
  {
  }

  /** A channel that an update does not name, or gives nothing, keeps its cache;
      and no update changes anything but caches. */
  lemma {:induction false} UpdateSparesOthers(s: State, ls: Table, update: seq<(ChannelId, seq<Context>)>, c: ChannelId)
    ensures var t := ApplyAll(s, ls, update).0; t == s.(contexts := t.contexts)
    ensures (forall k :: 0 <= k < |update| && update[k].1 != [] ==> update[k].0 != c)
            ==> var t := ApplyAll(s, ls, update).0;
                Contexts(t, c) == Contexts(s, c) && (c in t.contexts <==> c in s.contexts)
  {
    if update != [] {
      var front := update[..|update| - 1];
      assert forall k :: 0 <= k < |front| ==> front[k] == update[k];
      UpdateSparesOthers(s, ls, front, c);
    }
  }

  /** Channels of one update do not disturb each other: each ends with the cache
      of being processed alone. */
  lemma {:induction false} UpdateIsPerChannel(s: State, ls: Table, update: seq<(ChannelId, seq<Context>)>, k: nat)
    requires DistinctChannels(update) && k < |update| && update[k].1 != []
    ensures var t := ApplyAll(s, ls, update).0;
            var (c, incoming) := update[k];
            c in t.contexts && t.contexts[c] == Process(s, ls, c, incoming).cache
    decreases |update|
  {
    var front := update[..|update| - 1];
    var (c, incoming) := update[k];
    assert forall j :: 0 <= j < |front| ==> front[j] == update[j];
    if k == |update| - 1 {
      UpdateSparesOthers(s, ls, front, c);
      ProcessLooksAtItsChannel(s, ApplyAll(s, ls, front).0, ls, c, incoming);
    } else {
      UpdateIsPerChannel(s, ls, front, k);
      assert update[|update| - 1].0 != c;
    }
  }

  // ---------- Closed form ----------

  function FirstOfType(incoming: seq<Context>, t: string): (r: Option<Context>)
    ensures r.Some? ==> r.value.typ == t && r.value in incoming
    ensures r == None ==> forall x :: x in incoming ==> x.typ != t
  {
    if incoming == [] then None
    else if incoming[0].typ == t then Some(incoming[0])
    else FirstOfType(incoming[1..], t)
  }

  /** What a key holds after merging a list into a cache: the most recent
      context under the last-context key, and for a type its first listed
      context, or else what was there. */
  function Settled(cache: Cache, incoming: seq<Context>, t: string): Option<Context>
    requires incoming != []
  {
    if t == LAST_CONTEXT_KEY then Some(incoming[0])
    else if FirstOfType(incoming, t).Some? then FirstOfType(incoming, t)
    else Lookup(cache, t)
  }

  lemma {:induction false} AbsorbAllLookup(ls: Table, c: ChannelId, members: set<Instance>, cache: Cache,
                                           incoming: seq<Context>, t: string)
    ensures Lookup(AbsorbAll(ls, c, members, cache, incoming).cache, t)
            == if FirstOfType(incoming, t).Some? then FirstOfType(incoming, t) else Lookup(cache, t)
  {
    if incoming != [] {
      AbsorbAllLookup(ls, c, members, cache, incoming[1..], t);
    }
  }

  /** The stored cache has a closed form, for every list and every key,
      whoever listens. */
  lemma MergeClosedForm(ls: Table, c: ChannelId, members: set<Instance>, cache: Cache, incoming: seq<Context>,
                        t: string)
    requires incoming != []
    ensures Lookup(Merge(ls, c, members, cache, incoming).cache, t) == Settled(cache, incoming, t)
  {
    AbsorbAllLookup(ls, c, members, cache, incoming, t);
  }

  lemma CachesEqual(a: Cache, b: Cache)
    requires forall t :: Lookup(a, t) == Lookup(b, t)
    ensures a == b
  {
    forall t ensures t in a <==> t in b {
      assert Lookup(a, t) == Lookup(b, t);
    }
    forall t | t in a ensures a[t] == b[t] {
      assert Lookup(a, t) == Lookup(b, t);
    }
  }

  /** Applying an update again never changes the stored cache. */
  lemma MergeIdempotent(ls: Table, c: ChannelId, members: set<Instance>, cache: Cache, incoming: seq<Context>)
    requires incoming != []
    ensures var once := Merge(ls, c, members, cache, incoming).cache;
            Merge(ls, c, members, once, incoming).cache == once
  {
    var once := Merge(ls, c, members, cache, incoming).cache;
    var twice := Merge(ls, c, members, once, incoming).cache;
    forall t ensures Lookup(twice, t) == Lookup(once, t) {
      MergeClosedForm(ls, c, members, cache, incoming, t);
      MergeClosedForm(ls, c, members, once, incoming, t);
    }
    CachesEqual(twice, once);
  }

  // ---------- When applying again is silent ----------

  /** Listed contexts of one type are all the same; and any listed under the
      reserved type is the most recent context itself. */
  predicate Unanimous(incoming: seq<Context>) {
    forall x :: x in incoming ==> Settled(map[], incoming, x.typ) == Some(x)
  }

  lemma {:induction false} AgreeingAbsorbsSilently(ls: Table, c: ChannelId, members: set<Instance>, cache: Cache,
                                                   incoming: seq<Context>)
    requires forall x :: x in incoming ==> Lookup(cache, x.typ) == Some(x)
    ensures AbsorbAll(ls, c, members, cache, incoming) == Outcome(cache, [])
  {
    if incoming != [] {
      AgreeingAbsorbsSilently(ls, c, members, cache, incoming[1..]);
    }
  }

  /** One listener of instance `i` for the type of each listed context. */
  ghost function Audience(incoming: seq<Context>, i: Instance): Table {
    if incoming == [] then []
    else [Listener("", i, OnContext(Some(incoming[0].typ), None))] + Audience(incoming[1..], i)
  }

  /** Some member's typed listener, on this channel or global, hears type `t`. */
  ghost predicate Listens(ls: Table, c: ChannelId, i: Instance, t: string) {
    exists l :: l in ls && l.instance == i && l.topic.OnContext? && l.topic.contextType == Some(t)
                && l.topic.contextChannel in {None, Some(c)}
  }

  lemma {:induction false} AudienceListens(incoming: seq<Context>, c: ChannelId, i: Instance, t: string)
    requires exists x :: x in incoming && x.typ == t
    ensures Listens(Audience(incoming, i), c, i, t)
  {
    var l := Listener("", i, OnContext(Some(incoming[0].typ), None));
    if incoming[0].typ == t {
      assert l in Audience(incoming, i);
    } else {
      assert exists x :: x in incoming[1..] && x.typ == t;
      AudienceListens(incoming[1..], c, i, t);
      var m :| m in Audience(incoming[1..], i) && m.instance == i && m.topic.OnContext?
               && m.topic.contextType == Some(t)
               && m.topic.contextChannel in {None, Some(c)};
      assert m in Audience(incoming, i);
    }
  }

  lemma {:induction false} TypedSendsReach(ls: Table, members: set<Instance>, ctx: Context, l: Listener)
    requires l in ls && l.topic.OnContext? && l.topic.contextType != None && l.instance in members
    ensures Send(l.instance, ctx) in TypedSends(ls, members, ctx)
  {
    if ls[0] != l {
      TypedSendsReach(ls[1..], members, ctx, l);
    }
  }

  /** A change of type `t` is sent to every member that listens for it. */
  lemma ChangeReachesListener(ls: Table, c: ChannelId, members: set<Instance>, i: Instance, ctx: Context)
    requires Listens(ls, c, i, ctx.typ) && i in members
    ensures Send(i, ctx) in TypedSends(ContextListenersFor(ls, Some(ctx.typ), Some(c), true), members, ctx)
  {
    var l :| l in ls && l.instance == i && l.topic.OnContext? && l.topic.contextType == Some(ctx.typ)
             && l.topic.contextChannel in {None, Some(c)};
    assert l in OfContextType(ls, Some(ctx.typ));
    TypedSendsReach(ContextListenersFor(ls, Some(ctx.typ), Some(c), true), members, ctx, l);
  }

  lemma {:induction false} SilenceMeansAgreement(ls: Table, c: ChannelId, members: set<Instance>, i: Instance,
                                                 cache: Cache, incoming: seq<Context>)
    requires i in members && forall x :: x in incoming ==> Listens(ls, c, i, x.typ)
    requires AbsorbAll(ls, c, members, cache, incoming).queue == []
    ensures AbsorbAll(ls, c, members, cache, incoming).cache == cache
    ensures forall x :: x in incoming ==> Lookup(cache, x.typ) == Some(x)
  {
    if incoming != [] {
      SilenceMeansAgreement(ls, c, members, i, cache, incoming[1..]);
      ChangeReachesListener(ls, c, members, i, incoming[0]);
    }
  }

  /** Applying an update a second time sends nothing, whoever listens, exactly
      when the list is unanimous; pairwise distinct types are a special case. */
  lemma ReapplySilentIff(cache: Cache, c: ChannelId, incoming: seq<Context>)
    requires incoming != []
    ensures (forall ls, members ::
               Merge(ls, c, members, Merge(ls, c, members, cache, incoming).cache, incoming).queue == [])
            <==> Unanimous(incoming)
  {
    if Unanimous(incoming) {
      forall ls, members
        ensures Merge(ls, c, members, Merge(ls, c, members, cache, incoming).cache, incoming).queue == []
      {
        ReapplyIsSilent(ls, c, members, cache, incoming);
      }
    }
    if forall ls, members ::
        Merge(ls, c, members, Merge(ls, c, members, cache, incoming).cache, incoming).queue == [] {
      SilenceMeansUnanimous(cache, c, incoming);
    }
  }

  lemma SilenceMeansUnanimous(cache: Cache, c: ChannelId, incoming: seq<Context>)
    requires incoming != []
    requires var ls := Audience(incoming, "i");
             Merge(ls, c, {"i"}, Merge(ls, c, {"i"}, cache, incoming).cache, incoming).queue == []
    ensures Unanimous(incoming)
  {
    var ls := Audience(incoming, "i");
    var once := Merge(ls, c, {"i"}, cache, incoming).cache;
    forall x | x in incoming ensures Listens(ls, c, "i", x.typ) {
      AudienceListens(incoming, c, "i", x.typ);
    }
    SilenceMeansAgreement(ls, c, {"i"}, "i", once, incoming);
    forall x | x in incoming ensures Settled(map[], incoming, x.typ) == Some(x) {
      MergeClosedForm(ls, c, {"i"}, cache, incoming, x.typ);
    }
  }

  lemma ReapplyIsSilent(ls: Table, c: ChannelId, members: set<Instance>, cache: Cache, incoming: seq<Context>)
    requires incoming != [] && Unanimous(incoming)
    ensures Merge(ls, c, members, Merge(ls, c, members, cache, incoming).cache, incoming).queue == []
  {
    var once := Merge(ls, c, members, cache, incoming).cache;
    forall x | x in incoming ensures Lookup(once, x.typ) == Some(x) {
      MergeClosedForm(ls, c, members, cache, incoming, x.typ);
      assert Settled(map[], incoming, x.typ) == Some(x);
    }
    AgreeingAbsorbsSilently(ls, c, members, once, incoming);
    MergeClosedForm(ls, c, members, cache, incoming, LAST_CONTEXT_KEY);
  }

  predicate DistinctTypes(incoming: seq<Context>) {
    forall a, b :: 0 <= a < b < |incoming| ==> incoming[a].typ != incoming[b].typ
  }

  lemma {:induction false} DistinctTypesFirst(incoming: seq<Context>, x: Context)
    requires DistinctTypes(incoming) && x in incoming
    ensures FirstOfType(incoming, x.typ) == Some(x) == LastOfType(incoming, x.typ)
  {
    var k :| 0 <= k < |incoming| && incoming[k] == x;
    FirstAt(incoming, k);
    LastAt(incoming, k);
  }

  lemma {:induction false} FirstAt(incoming: seq<Context>, k: nat)
    requires k < |incoming| && forall a :: 0 <= a < k ==> incoming[a].typ != incoming[k].typ
    ensures FirstOfType(incoming, incoming[k].typ) == Some(incoming[k])
  {
    if k > 0 {
      FirstAt(incoming[1..], k - 1);
    }
  }

  lemma {:induction false} LastAt(incoming: seq<Context>, k: nat)
    requires k < |incoming| && forall a :: k < a < |incoming| ==> incoming[a].typ != incoming[k].typ
    ensures LastOfType(incoming, incoming[k].typ) == Some(incoming[k])
    decreases |incoming|
  {
    if k < |incoming| - 1 {
      LastAt(incoming[..|incoming| - 1], k);
    }
  }

  lemma DistinctTypesUnanimous(incoming: seq<Context>)
    requires DistinctTypes(incoming) && forall x :: x in incoming ==> x.typ != LAST_CONTEXT_KEY
    ensures incoming != [] ==> Unanimous(incoming)
  {
  }

  // ---------- Unknown channels ----------

  lemma {:induction false} StoreAllLookup(cache: Cache, incoming: seq<Context>, t: string)
    ensures Lookup(StoreAll(cache, incoming), t)
            == if LastOfType(incoming, t).Some? then LastOfType(incoming, t) else Lookup(cache, t)
  {
    if incoming != [] {
      StoreAllLookup(cache, incoming[..|incoming| - 1], t);
    }
  }

  /** Type by type, the first listed context is also the last listed. */
  ghost predicate FirstIsLast(incoming: seq<Context>) {
    forall t :: t != LAST_CONTEXT_KEY ==> FirstOfType(incoming, t) == LastOfType(incoming, t)
  }

  /** An unknown channel ends up like a known one with an empty cache exactly
      when, type by type, the first listed context equals the last listed. */
  lemma UnknownLikeEmptyKnownIff(ls: Table, c: ChannelId, members: set<Instance>, incoming: seq<Context>)
    requires incoming != []
    ensures StoreUnknown(incoming) == Merge(ls, c, members, map[], incoming).cache
            <==> FirstIsLast(incoming)
  {
    var known := Merge(ls, c, members, map[], incoming).cache;
    forall t
      ensures Lookup(known, t) == Settled(map[], incoming, t)
      ensures Lookup(StoreUnknown(incoming), t)
              == if t == LAST_CONTEXT_KEY then Some(incoming[0]) else LastOfType(incoming, t)
    {
      MergeClosedForm(ls, c, members, map[], incoming, t);
      StoreAllLookup(map[], incoming, t);
    }
    if FirstIsLast(incoming) {
      forall t ensures Lookup(StoreUnknown(incoming), t) == Lookup(known, t) {
        assert t != LAST_CONTEXT_KEY ==> FirstOfType(incoming, t) == LastOfType(incoming, t);
        assert Lookup(known, t) == Settled(map[], incoming, t);
      }
      CachesEqual(StoreUnknown(incoming), known);
    }
    if StoreUnknown(incoming) == known {
      forall t | t != LAST_CONTEXT_KEY ensures FirstOfType(incoming, t) == LastOfType(incoming, t) {
        assert Lookup(known, t) == Settled(map[], incoming, t);
        assert Lookup(StoreUnknown(incoming), t) == LastOfType(incoming, t);
      }
    }
  }

  lemma DistinctTypesUnknownLikeKnown(ls: Table, c: ChannelId, members: set<Instance>, incoming: seq<Context>)
    requires incoming != [] && DistinctTypes(incoming)
    ensures StoreUnknown(incoming) == Merge(ls, c, members, map[], incoming).cache
  {
    forall t ensures FirstOfType(incoming, t) == LastOfType(incoming, t) {
      LastOfTypeListed(incoming, t);
      if FirstOfType(incoming, t).Some? {
        DistinctTypesFirst(incoming, FirstOfType(incoming, t).value);
      }
    }
    UnknownLikeEmptyKnownIff(ls, c, members, incoming);
  }

  lemma {:induction false} LastOfTypeListed(h: seq<Context>, t: string)
    ensures LastOfType(h, t).Some? ==> LastOfType(h, t).value in h && LastOfType(h, t).value.typ == t
  {
    if h != [] && h[|h| - 1].typ != t {
      LastOfTypeListed(h[..|h| - 1], t);
    }
  }

  // ---------- Convergence ----------

  /** The last context of type `t` that `i` has seen: `r`, unless the queue
      brought a later one. */
  function Deliver(r: Option<Context>, queue: seq<Send>, i: Instance, t: string): Option<Context> {
    if queue == [] then r
    else
      var last := queue[|queue| - 1];
      if last.to == i && last.context.typ == t then Some(last.context)
      else Deliver(r, queue[..|queue| - 1], i, t)
  }

  lemma {:induction false} DeliverAppend(r: Option<Context>, a: seq<Send>, b: seq<Send>, i: Instance, t: string)
    ensures Deliver(r, a + b, i, t) == Deliver(Deliver(r, a, i, t), b, i, t)
  {
    if b == [] {
      assert a + b == a;
    } else {
      assert (a + b)[..|a + b| - 1] == a + b[..|b| - 1];
      DeliverAppend(r, a, b[..|b| - 1], i, t);
    }
  }

  lemma {:induction false} DeliverUniform(r: Option<Context>, queue: seq<Send>, i: Instance, t: string, ctx: Context)
    requires forall q :: q in queue ==> q.context == ctx
    ensures Deliver(r, queue, i, t) == if ctx.typ == t && Send(i, ctx) in queue then Some(ctx) else r
  {
    if queue != [] {
      var front := queue[..|queue| - 1];
      assert queue == front + [queue[|queue| - 1]];
      DeliverUniform(r, front, i, t, ctx);
    }
  }

  lemma {:induction false} SendsCarry(ls: Table, c: ChannelId, members: set<Instance>, ctx: Context)
    ensures forall q :: q in TypedSends(ls, members, ctx) ==> q.context == ctx
    ensures forall q :: q in UntypedSends(ls, c, members, ctx) ==> q.context == ctx
  {
    if ls != [] {
      SendsCarry(ls[1..], c, members, ctx);
    }
  }

  lemma {:induction false} AbsorbAllConverges(ls: Table, c: ChannelId, members: set<Instance>, cache: Cache,
                                              incoming: seq<Context>, i: Instance, t: string)
    requires i in members && Listens(ls, c, i, t)
    ensures var o := AbsorbAll(ls, c, members, cache, incoming);
            Deliver(Lookup(cache, t), o.queue, i, t) == Lookup(o.cache, t)
  {
    if incoming != [] {
      var o := AbsorbAll(ls, c, members, cache, incoming[1..]);
      var ctx := incoming[0];
      AbsorbAllConverges(ls, c, members, cache, incoming[1..], i, t);
      var sends := TypedSends(ContextListenersFor(ls, Some(ctx.typ), Some(c), true), members, ctx);
      SendsCarry(ContextListenersFor(ls, Some(ctx.typ), Some(c), true), c, members, ctx);
      DeliverAppend(Lookup(cache, t), o.queue, sends, i, t);
      DeliverUniform(Lookup(o.cache, t), sends, i, t, ctx);
      if ctx.typ == t {
        ChangeReachesListener(ls, c, members, i, ctx);
      }
    }
  }

  lemma {:induction false} DeliverTyped(r: Option<Context>, queue: seq<Send>, i: Instance, t: string)
    requires r.Some? ==> r.value.typ == t
    ensures Deliver(r, queue, i, t).Some? ==> Deliver(r, queue, i, t).value.typ == t
  {
    if queue != [] {
      DeliverTyped(r, queue[..|queue| - 1], i, t);
    }
  }

  /** If `r`, a member's last received context of a type it listens for, is the
      stored one before an update, then after the queue is delivered in order
      it is the newly stored one, even when the list repeats types; exactly
      unless the type is the reserved key and the most recent context is of
      another type. */
  lemma UpdateConvergesIff(ls: Table, c: ChannelId, members: set<Instance>, cache: Cache, incoming: seq<Context>,
                           i: Instance, t: string, r: Option<Context>)
    requires incoming != [] && i in members && Listens(ls, c, i, t)
    requires r == Lookup(cache, t) && (r.Some? ==> r.value.typ == t)
    ensures var o := Merge(ls, c, members, cache, incoming);
            Deliver(r, o.queue, i, t) == Lookup(o.cache, t)
            <==> t != LAST_CONTEXT_KEY || incoming[0].typ == LAST_CONTEXT_KEY
  {
    var o := AbsorbAll(ls, c, members, cache, incoming);
    AbsorbAllConverges(ls, c, members, cache, incoming, i, t);
    AbsorbAllLookup(ls, c, members, cache, incoming, incoming[0].typ);
    assert Lookup(o.cache, incoming[0].typ) == Some(incoming[0]);
    var last := UntypedSends(ls, c, members, incoming[0]);
    SendsCarry(ls, c, members, incoming[0]);
    DeliverAppend(r, o.queue, last, i, t);
    DeliverUniform(Lookup(o.cache, t), last, i, t, incoming[0]);
    DeliverTyped(r, Merge(ls, c, members, cache, incoming).queue, i, t);
    MergeClosedForm(ls, c, members, cache, incoming, t);
  }

  /** The family that fails, on one input: a listener for the reserved type is
      left with a context that is not the stored one. */
  lemma ReservedTypeDiverges(c: ChannelId)
    ensures var ls := [Listener("k", "i", OnContext(Some(LAST_CONTEXT_KEY), None))];
            var incoming := [Context("fdc3.instrument", "new"), Context(LAST_CONTEXT_KEY, "old")];
            var o := Merge(ls, c, {"i"}, map[], incoming);
            && Lookup(o.cache, LAST_CONTEXT_KEY) == Some(incoming[0])
            && Deliver(None, o.queue, "i", LAST_CONTEXT_KEY) != Some(incoming[0])
  {
    var l := Listener("k", "i", OnContext(Some(LAST_CONTEXT_KEY), None));
    var incoming := [Context("fdc3.instrument", "new"), Context(LAST_CONTEXT_KEY, "old")];
    assert l in [l] && Listens([l], c, "i", LAST_CONTEXT_KEY);
    UpdateConvergesIff([l], c, {"i"}, map[], incoming, "i", LAST_CONTEXT_KEY, None);
    MergeClosedForm([l], c, {"i"}, map[], incoming, LAST_CONTEXT_KEY);
  }

  /** The last context of any type that `i` has seen. */
  function DeliverAny(r: Option<Context>, queue: seq<Send>, i: Instance): Option<Context> {
    if queue == [] then r
    else if queue[|queue| - 1].to == i then Some(queue[|queue| - 1].context)
    else DeliverAny(r, queue[..|queue| - 1], i)
  }

  lemma {:induction false} DeliverAnyAppend(r: Option<Context>, a: seq<Send>, b: seq<Send>, i: Instance)
    ensures DeliverAny(r, a + b, i) == DeliverAny(DeliverAny(r, a, i), b, i)
  {
    if b == [] {
      assert a + b == a;
    } else {
      assert (a + b)[..|a + b| - 1] == a + b[..|b| - 1];
      DeliverAnyAppend(r, a, b[..|b| - 1], i);
    }
  }

  lemma {:induction false} DeliverAnyUniform(r: Option<Context>, queue: seq<Send>, i: Instance, ctx: Context)
    requires forall q :: q in queue ==> q.context == ctx
    ensures DeliverAny(r, queue, i) == if Send(i, ctx) in queue then Some(ctx) else r
  {
    if queue != [] {
      assert queue == queue[..|queue| - 1] + [queue[|queue| - 1]];
      DeliverAnyUniform(r, queue[..|queue| - 1], i, ctx);
    }
  }

  /** `i` has a listener without a type, on this channel or global. */
  ghost predicate ListensToAll(ls: Table, c: ChannelId, i: Instance) {
    exists l :: l in ls && l.instance == i && l.topic.OnContext? && l.topic.contextType == None
                && l.topic.contextChannel in {None, Some(c)}
  }

  lemma {:induction false} UntypedSendsReach(ls: Table, c: ChannelId, members: set<Instance>, ctx: Context, l: Listener)
    requires l in ls && l.topic.OnContext? && l.topic.contextType == None && l.topic.contextChannel in {None, Some(c)}
    requires l.instance in members
    ensures Send(l.instance, ctx) in UntypedSends(ls, c, members, ctx)
  {
    if ls[0] != l {
      UntypedSendsReach(ls[1..], c, members, ctx, l);
    }
  }

  lemma {:induction false} TypedSendsOnly(ls: Table, members: set<Instance>, ctx: Context, i: Instance)
    requires Send(i, ctx) in TypedSends(ls, members, ctx)
    ensures i in members
    ensures exists l :: l in ls && l.instance == i && l.topic.OnContext? && l.topic.contextType != None
  {
    var head := ls[0];
    if !(head.topic.OnContext? && head.topic.contextType != None && head.instance == i && i in members) {
      TypedSendsOnly(ls[1..], members, ctx, i);
    }
  }

  /** A change of a type is sent to exactly the members that listen for it. */
  lemma ChangeReachesIff(ls: Table, c: ChannelId, members: set<Instance>, i: Instance, ctx: Context)
    ensures Send(i, ctx) in TypedSends(ContextListenersFor(ls, Some(ctx.typ), Some(c), true), members, ctx)
            <==> i in members && Listens(ls, c, i, ctx.typ)
  {
    var heard := ContextListenersFor(ls, Some(ctx.typ), Some(c), true);
    if i in members && Listens(ls, c, i, ctx.typ) {
      ChangeReachesListener(ls, c, members, i, ctx);
    }
    if Send(i, ctx) in TypedSends(heard, members, ctx) {
      TypedSendsOnly(heard, members, ctx, i);
    }
  }

  /** What a key holds once a list is absorbed: its first listed context, or
      else what was cached. */
  function Newest(cache: Cache, incoming: seq<Context>, t: string): Option<Context> {
    if FirstOfType(incoming, t).Some? then FirstOfType(incoming, t) else Lookup(cache, t)
  }

  /** The most recent listed context that is news, differing from the next older
      one of its type or else from the cached one, of a type `i` listens for. */
  ghost function LatestNews(ls: Table, c: ChannelId, i: Instance, cache: Cache, incoming: seq<Context>)
    : Option<Context>
  {
    if incoming == [] then None
    else if Newest(cache, incoming[1..], incoming[0].typ) != Some(incoming[0]) && Listens(ls, c, i, incoming[0].typ)
    then Some(incoming[0])
    else LatestNews(ls, c, i, cache, incoming[1..])
  }

  lemma {:induction false} AbsorbAllBrings(ls: Table, c: ChannelId, members: set<Instance>, cache: Cache,
                                           incoming: seq<Context>, i: Instance, r: Option<Context>)
    requires i in members
    ensures var news := LatestNews(ls, c, i, cache, incoming);
            DeliverAny(r, AbsorbAll(ls, c, members, cache, incoming).queue, i) == if news.Some? then news else r
  {
    if incoming != [] {
      var ctx := incoming[0];
      var rest := AbsorbAll(ls, c, members, cache, incoming[1..]);
      var heard := ContextListenersFor(ls, Some(ctx.typ), Some(c), true);
      var sends := TypedSends(heard, members, ctx);
      AbsorbAllBrings(ls, c, members, cache, incoming[1..], i, r);
      AbsorbAllLookup(ls, c, members, cache, incoming[1..], ctx.typ);
      SendsCarry(heard, c, members, ctx);
      ChangeReachesIff(ls, c, members, i, ctx);
      DeliverAnyUniform(DeliverAny(r, rest.queue, i), sends, i, ctx);
      DeliverAnyAppend(r, rest.queue, sends, i);
    }
  }

  /** A member with an untyped listener, and any others, whose last received
      context was the channel's last, has the new last context after an update
      exactly if that context was not already cached as last, which has it sent
      to untyped listeners; or it is the latest news for the member's typed
      listeners; or there is no such news and nothing changed. */
  lemma UntypedConvergesIff(ls: Table, c: ChannelId, members: set<Instance>, cache: Cache, incoming: seq<Context>,
                            i: Instance, r: Option<Context>)
    requires incoming != [] && i in members && ListensToAll(ls, c, i) && r == Lookup(cache, LAST_CONTEXT_KEY)
    ensures var o := Merge(ls, c, members, cache, incoming);
            var news := LatestNews(ls, c, i, cache, incoming);
            DeliverAny(r, o.queue, i) == Lookup(o.cache, LAST_CONTEXT_KEY)
            <==> || Newest(cache, incoming, LAST_CONTEXT_KEY) != Some(incoming[0])
                 || news == Some(incoming[0])
                 || (news == None && Lookup(cache, LAST_CONTEXT_KEY) == Some(incoming[0]))
  {
    var o := AbsorbAll(ls, c, members, cache, incoming);
    var sends := UntypedSends(ls, c, members, incoming[0]);
    AbsorbAllBrings(ls, c, members, cache, incoming, i, r);
    AbsorbAllLookup(ls, c, members, cache, incoming, LAST_CONTEXT_KEY);
    SendsCarry(ls, c, members, incoming[0]);
    DeliverAnyUniform(DeliverAny(r, o.queue, i), sends, i, incoming[0]);
    DeliverAnyAppend(r, o.queue, sends, i);
    var l :| l in ls && l.instance == i && l.topic.OnContext? && l.topic.contextType == None
             && l.topic.contextChannel in {None, Some(c)};
    UntypedSendsReach(ls, c, members, incoming[0], l);
  }

  /** A failing input of ordinary types: the last context stays what it was, so
      only the older change goes out, and the member is left with that. */
  lemma TypedAndUntypedDiverge(c: ChannelId)
    ensures var ls := [Listener("k", "i", OnContext(Some("A"), None)), Listener("u", "i", OnContext(None, None))];
            var (a0, a1, b0) := (Context("A", "0"), Context("A", "1"), Context("B", "0"));
            var o := Merge(ls, c, {"i"}, map["A" := a0, "B" := b0, LAST_CONTEXT_KEY := b0], [b0, a1]);
            Lookup(o.cache, LAST_CONTEXT_KEY) == Some(b0) && DeliverAny(Some(b0), o.queue, "i") == Some(a1)
  {
    var typed := Listener("k", "i", OnContext(Some("A"), None));
    var ls := [typed, Listener("u", "i", OnContext(None, None))];
    var (a1, b0) := (Context("A", "1"), Context("B", "0"));
    var cache := map["A" := Context("A", "0"), "B" := b0, LAST_CONTEXT_KEY := b0];
    assert typed in ls && ls[1] in ls;
    assert Listens(ls, c, "i", "A") && ListensToAll(ls, c, "i");
    assert [b0, a1][1..] == [a1] && [a1][1..] == [];
    assert FirstOfType([a1], "A") == Some(a1);
    assert LatestNews(ls, c, "i", cache, [a1]) == Some(a1);
    MergeClosedForm(ls, c, {"i"}, cache, [b0, a1], LAST_CONTEXT_KEY);
    AbsorbAllBrings(ls, c, {"i"}, cache, [b0, a1], "i", Some(b0));
    AbsorbAllLookup(ls, c, {"i"}, cache, [b0, a1], LAST_CONTEXT_KEY);
  }

  // ---------- Convergence of a whole update ----------

  ghost predicate Changes(cache: Cache, incoming: seq<Context>, t: string) {
    exists x :: x in incoming && x.typ == t && Lookup(cache, t) != Some(x)
  }

  /** The context of type `t` that one channel of an update leaves with `i`. */
  ghost function Brought(s: State, ls: Table, i: Instance, t: string, c: ChannelId, incoming: seq<Context>)
    : Option<Context>
  {
    var cache := Contexts(s, c);
    if incoming == [] || !KnownChannel(s, c) || i !in MemberSet(s, c) then None
    else if || (Listens(ls, c, i, t) && Changes(cache, incoming, t))
            || (ListensToAll(ls, c, i) && incoming[0].typ == t
                && Newest(cache, incoming, LAST_CONTEXT_KEY) != Some(incoming[0]))
    then FirstOfType(incoming, t) else None
  }

  /** The context of type `t` that the last channel to bring one leaves. */
  ghost function BroughtByAll(s: State, ls: Table, i: Instance, t: string, update: seq<(ChannelId, seq<Context>)>)
    : Option<Context>
  {
    if update == [] then None
    else
      var news := Brought(s, ls, i, t, update[|update| - 1].0, update[|update| - 1].1);
      if news.Some? then news else BroughtByAll(s, ls, i, t, update[..|update| - 1])
  }

  lemma {:induction false} AbsorbAllDelivers(ls: Table, c: ChannelId, members: set<Instance>, cache: Cache,
                                             incoming: seq<Context>, i: Instance, t: string, r: Option<Context>)
    ensures Deliver(r, AbsorbAll(ls, c, members, cache, incoming).queue, i, t)
            == if i in members && Listens(ls, c, i, t) && Changes(cache, incoming, t)
               then FirstOfType(incoming, t) else r
  {
    if incoming != [] {
      var ctx := incoming[0];
      var rest := AbsorbAll(ls, c, members, cache, incoming[1..]);
      var heard := ContextListenersFor(ls, Some(ctx.typ), Some(c), true);
      var sends := TypedSends(heard, members, ctx);
      AbsorbAllDelivers(ls, c, members, cache, incoming[1..], i, t, r);
      AbsorbAllLookup(ls, c, members, cache, incoming[1..], ctx.typ);
      SendsCarry(heard, c, members, ctx);
      ChangeReachesIff(ls, c, members, i, ctx);
      DeliverUniform(Deliver(r, rest.queue, i, t), sends, i, t, ctx);
      DeliverAppend(r, rest.queue, sends, i, t);
      ChangesStep(cache, incoming, t);
    }
  }

  lemma ChangesStep(cache: Cache, incoming: seq<Context>, t: string)
    requires incoming != []
    ensures Changes(cache, incoming, t)
            <==> Changes(cache, incoming[1..], t) || (incoming[0].typ == t && Lookup(cache, t) != Some(incoming[0]))
  {
    assert incoming == [incoming[0]] + incoming[1..];
  }

  lemma {:induction false} UntypedSendsOnly(ls: Table, c: ChannelId, members: set<Instance>, ctx: Context, i: Instance)
    ensures Send(i, ctx) in UntypedSends(ls, c, members, ctx) ==> i in members && ListensToAll(ls, c, i)
  {
    if ls != [] {
      UntypedSendsOnly(ls[1..], c, members, ctx, i);
      if ListensToAll(ls[1..], c, i) {
        var l :| l in ls[1..] && l.instance == i && l.topic.OnContext? && l.topic.contextType == None
                 && l.topic.contextChannel in {None, Some(c)};
        assert l in ls;
      }
      assert ls[0] in ls;
    }
  }

  lemma UntypedReachesIff(ls: Table, c: ChannelId, members: set<Instance>, ctx: Context, i: Instance)
    ensures Send(i, ctx) in UntypedSends(ls, c, members, ctx) <==> i in members && ListensToAll(ls, c, i)
  {
    UntypedSendsOnly(ls, c, members, ctx, i);
    if i in members && ListensToAll(ls, c, i) {
      var l :| l in ls && l.instance == i && l.topic.OnContext? && l.topic.contextType == None
               && l.topic.contextChannel in {None, Some(c)};
      UntypedSendsReach(ls, c, members, ctx, l);
    }
  }

  lemma ProcessDelivers(s: State, ls: Table, c: ChannelId, incoming: seq<Context>, i: Instance, t: string,
                        r: Option<Context>)
    requires incoming != []
    ensures var news := Brought(s, ls, i, t, c, incoming);
            Deliver(r, Process(s, ls, c, incoming).queue, i, t) == if news.Some? then news else r
  {
    if KnownChannel(s, c) {
      var members, cache := MemberSet(s, c), Contexts(s, c);
      var o := AbsorbAll(ls, c, members, cache, incoming);
      var sends := UntypedSends(ls, c, members, incoming[0]);
      AbsorbAllDelivers(ls, c, members, cache, incoming, i, t, r);
      AbsorbAllLookup(ls, c, members, cache, incoming, LAST_CONTEXT_KEY);
      UntypedReachesIff(ls, c, members, incoming[0], i);
      SendsCarry(ls, c, members, incoming[0]);
      DeliverUniform(Deliver(r, o.queue, i, t), sends, i, t, incoming[0]);
      DeliverAppend(r, o.queue, sends, i, t);
    }
  }

  lemma {:induction false} ApplyAllDelivers(s: State, ls: Table, update: seq<(ChannelId, seq<Context>)>, i: Instance,
                                            t: string, r: Option<Context>)
    requires DistinctChannels(update)
    ensures var news := BroughtByAll(s, ls, i, t, update);
            Deliver(r, ApplyAll(s, ls, update).1, i, t) == if news.Some? then news else r
  {
    if update != [] {
      var front := update[..|update| - 1];
      var (c, incoming) := update[|update| - 1];
      var (before, sent) := ApplyAll(s, ls, front);
      ApplyAllDelivers(s, ls, front, i, t, r);
      if incoming != [] {
        UpdateSparesOthers(s, ls, front, c);
        ProcessLooksAtItsChannel(s, before, ls, c, incoming);
        ProcessDelivers(s, ls, c, incoming, i, t, Deliver(r, sent, i, t));
        DeliverAppend(r, sent, Process(s, ls, c, incoming).queue, i, t);
      }
    }
  }

  lemma {:induction false} BroughtAmong(s: State, ls: Table, i: Instance, t: string,
                                        update: seq<(ChannelId, seq<Context>)>)
    ensures BroughtByAll(s, ls, i, t, update) == None
            <==> forall j :: 0 <= j < |update| ==> Brought(s, ls, i, t, update[j].0, update[j].1) == None
    ensures BroughtByAll(s, ls, i, t, update).Some?
            ==> exists j :: 0 <= j < |update|
                            && Brought(s, ls, i, t, update[j].0, update[j].1) == BroughtByAll(s, ls, i, t, update)
  {
    if update != [] {
      var front := update[..|update| - 1];
      BroughtAmong(s, ls, i, t, front);
      assert forall j :: 0 <= j < |front| ==> front[j] == update[j];
    }
  }

  /** After a whole update, a member's last context of a type it listens for on
      a channel is the one newly stored there exactly if the last channel to
      send it one of that type sends this very context, or none does and the
      stored one stays, as it then must for all but the reserved type. Sends
      carry no channel, so channels that share a member can overwrite each
      other. */
  lemma WholeUpdateConvergesIff(s: State, ls: Table, update: seq<(ChannelId, seq<Context>)>, k: nat, i: Instance,
                                t: string, r: Option<Context>)
    requires DistinctChannels(update) && k < |update| && update[k].1 != []
    requires var c := update[k].0;
             KnownChannel(s, c) && i in MemberSet(s, c) && Listens(ls, c, i, t) && r == Lookup(Contexts(s, c), t)
    ensures var (c, incoming) := update[k];
            var (after, sent) := ApplyAll(s, ls, update);
            var news := BroughtByAll(s, ls, i, t, update);
            Deliver(r, sent, i, t) == Lookup(Contexts(after, c), t)
            <==> if news.Some? then news == Settled(Contexts(s, c), incoming, t)
                 else t != LAST_CONTEXT_KEY || Lookup(Contexts(s, c), t) == Some(incoming[0])
  {
    var (c, incoming) := update[k];
    ApplyAllDelivers(s, ls, update, i, t, r);
    UpdateIsPerChannel(s, ls, update, k);
    MergeClosedForm(ls, c, MemberSet(s, c), Contexts(s, c), incoming, t);
    BroughtAmong(s, ls, i, t, update);
    assert Brought(s, ls, i, t, update[k].0, update[k].1) == None ==> !Changes(Contexts(s, c), incoming, t);
  }

  /** So a member listed in no other channel of the update always follows in a
      type other than the reserved one. */
  lemma ListedOnceConverges(s: State, ls: Table, update: seq<(ChannelId, seq<Context>)>, k: nat, i: Instance,
                            t: string, r: Option<Context>)
    requires DistinctChannels(update) && k < |update| && update[k].1 != [] && t != LAST_CONTEXT_KEY
    requires var c := update[k].0;
             KnownChannel(s, c) && i in MemberSet(s, c) && Listens(ls, c, i, t) && r == Lookup(Contexts(s, c), t)
    requires forall j :: 0 <= j < |update| && j != k ==> i !in MemberSet(s, update[j].0)
    ensures var (after, sent) := ApplyAll(s, ls, update);
            Deliver(r, sent, i, t) == Lookup(Contexts(after, update[k].0), t)
  {
    WholeUpdateConvergesIff(s, ls, update, k, i, t, r);
    BroughtAmong(s, ls, i, t, update);
    if BroughtByAll(s, ls, i, t, update).Some? {
      var j :| 0 <= j < |update|
               && Brought(s, ls, i, t, update[j].0, update[j].1) == BroughtByAll(s, ls, i, t, update);
      assert j == k;
    }
  }

  /** The failure occurs in a reachable state: an owner is listed in its private
      channel while joined to another one, and the second channel of the update
      overwrites what the first brought. */
  lemma SharedMemberDiverges(ops: seq<Op>, i: Instance, p: ChannelId, u: ChannelId)
    requires var s := Run(ops);
             && p != u && i in MemberSet(s, p) && i in MemberSet(s, u)
             && Contexts(s, p) == map[] && Contexts(s, u) == map[]
    ensures var ls := [Listener("k", i, OnContext(Some("A"), None))];
            var (a0, a1) := (Context("A", "0"), Context("A", "1"));
            var (after, sent) := ApplyAll(Run(ops), ls, [(p, [a0]), (u, [a1])]);
            Lookup(Contexts(after, p), "A") == Some(a0) && Deliver(None, sent, i, "A") == Some(a1)
  {
    var s := Run(ops);
    var l := Listener("k", i, OnContext(Some("A"), None));
    var ls := [l];
    var (a0, a1) := (Context("A", "0"), Context("A", "1"));
    var update := [(p, [a0]), (u, [a1])];
    assert l in ls;
    assert Listens(ls, p, i, "A") && Listens(ls, u, i, "A");
    assert a1 in [a1];
    assert Changes(Contexts(s, u), [a1], "A");
    assert Brought(s, ls, i, "A", u, [a1]) == Some(a1);
    ApplyAllDelivers(s, ls, update, i, "A", None);
    UpdateIsPerChannel(s, ls, update, 0);
    MergeClosedForm(ls, p, MemberSet(s, p), Contexts(s, p), [a0], "A");
  }

  /** The run that leads there. */
  function OwnerElsewhere(i: Instance): seq<Op> {
    [] + [CreatePrivateOp(i, Some("p"), "")] + [CreateOp("u", "user")] + [JoinOp(i, "u")]
  }

  lemma SharedMemberIsReachable(i: Instance)
    ensures var s := Run(OwnerElsewhere(i));
            && i in MemberSet(s, "p") && i in MemberSet(s, "u")
            && Contexts(s, "p") == map[] && Contexts(s, "u") == map[]
  {
    var create, other := CreatePrivateOp(i, Some("p"), ""), CreateOp("u", "user");
    RunStep([], create);
    RunStep([] + [create], other);
    RunStep([] + [create] + [other], JoinOp(i, "u"));
    var s := Create(CreatePrivate(EMPTY, i, "p"), "u", "user");
    assert "p" != "u" && i !in s.current && s.channels["p"].members == [i] && s.channels["u"].members == [];
    assert Join(s, i, "u").channels["u"].members == [i];
    assert Join(s, i, "u").channels["p"].members == [i];
  }

  // ---------- Known and unknown channels ----------

  /** A channel named in an update, that exists or has cached contexts, ends with
      what was cached overridden by the first listed context of each type, and
      the most recent one as last; a channel that neither exists nor has any
      ends with the last listed context of each type and the same last one. */
  lemma WholeUpdateStores(s: State, ls: Table, update: seq<(ChannelId, seq<Context>)>, k: nat, t: string)
    requires DistinctChannels(update) && k < |update| && update[k].1 != []
    ensures var (c, incoming) := update[k];
            var after := ApplyAll(s, ls, update).0;
            var stored := if c in after.contexts then Lookup(after.contexts[c], t) else None;
            if c in s.channels || c in s.contexts
            then stored == Settled(if c in s.contexts then s.contexts[c] else map[], incoming, t)
            else stored == if t == LAST_CONTEXT_KEY then Some(incoming[0]) else LastOfType(incoming, t)
  {
    var (c, incoming) := update[k];
    UpdateIsPerChannel(s, ls, update, k);
    if c in s.channels || c in s.contexts {
      MergeClosedForm(ls, c, MemberSet(s, c), Contexts(s, c), incoming, t);
    } else {
      StoreAllLookup(map[], incoming, t);
    }
  }

  ghost function QueueOf(s: State, ls: Table, entry: (ChannelId, seq<Context>)): seq<Send> {
    if entry.1 == [] then [] else Process(s, ls, entry.0, entry.1).queue
  }

  /** The sends of every channel of an update, each processed alone. */
  ghost function QueueList(s: State, ls: Table, update: seq<(ChannelId, seq<Context>)>): seq<seq<Send>> {
    seq(|update|, k requires 0 <= k < |update| => QueueOf(s, ls, update[k]))
  }

  lemma {:induction false} ApplyAllQueues(s: State, ls: Table, update: seq<(ChannelId, seq<Context>)>)
    requires DistinctChannels(update)
    ensures ApplyAll(s, ls, update).1 == Flat(QueueList(s, ls, update))
  {
    if update != [] {
      var front, last := update[..|update| - 1], update[|update| - 1];
      ApplyAllQueues(s, ls, front);
      assert QueueList(s, ls, update) == QueueList(s, ls, front) + [QueueOf(s, ls, last)];
      FlatLast(QueueList(s, ls, front), QueueOf(s, ls, last));
      if last.1 != [] {
        UpdateSparesOthers(s, ls, front, last.0);
        ProcessLooksAtItsChannel(s, ApplyAll(s, ls, front).0, ls, last.0, last.1);
      }
    }
  }

  lemma {:induction false} DistinctAround(before: seq<(ChannelId, seq<Context>)>, entry: (ChannelId, seq<Context>),
                                          after: seq<(ChannelId, seq<Context>)>)
    requires DistinctChannels(before + ([entry] + after))
    ensures DistinctChannels(before + after)
  {
    var all, rest := before + ([entry] + after), before + after;
    forall a, b | 0 <= a < b < |rest| ensures rest[a].0 != rest[b].0 {
      assert rest[a] == all[if a < |before| then a else a + 1];
      assert rest[b] == all[if b < |before| then b else b + 1];
    }
  }

  lemma {:induction false} QueueListAround(s: State, ls: Table, before: seq<(ChannelId, seq<Context>)>,
                                           entry: (ChannelId, seq<Context>), after: seq<(ChannelId, seq<Context>)>)
    ensures QueueList(s, ls, before + ([entry] + after))
            == QueueList(s, ls, before) + ([QueueOf(s, ls, entry)] + QueueList(s, ls, after))
    ensures QueueList(s, ls, before + after) == QueueList(s, ls, before) + QueueList(s, ls, after)
  {
  }

  /** A channel that neither exists nor has cached contexts adds nothing to what an
      update sends. */
  lemma {:induction false} UnknownSendsNothing(s: State, ls: Table, update: seq<(ChannelId, seq<Context>)>, k: nat)
    requires DistinctChannels(update) && k < |update|
    requires update[k].0 !in s.channels && update[k].0 !in s.contexts
    ensures ApplyAll(s, ls, update).1 == ApplyAll(s, ls, update[..k] + update[k + 1..]).1
  {
    var before, entry, after := update[..k], update[k], update[k + 1..];
    assert update == before + ([entry] + after);
    DistinctAround(before, entry, after);
    QueueListAround(s, ls, before, entry, after);
    FlatSkip(QueueList(s, ls, before), QueueList(s, ls, after));
    assert QueueOf(s, ls, entry) == [];
    ApplyAllQueues(s, ls, update);
    ApplyAllQueues(s, ls, before + after);
  }

  // ---------- Untyped listeners over a whole update ----------

  /** The context, of any type, that one channel of an update leaves with `i`. */
  ghost function BroughtAny(s: State, ls: Table, i: Instance, c: ChannelId, incoming: seq<Context>): Option<Context> {
    var cache := Contexts(s, c);
    if incoming == [] || !KnownChannel(s, c) || i !in MemberSet(s, c) then None
    else if ListensToAll(ls, c, i) && Newest(cache, incoming, LAST_CONTEXT_KEY) != Some(incoming[0])
    then Some(incoming[0]) else LatestNews(ls, c, i, cache, incoming)
  }

  ghost function BroughtAnyByAll(s: State, ls: Table, i: Instance, update: seq<(ChannelId, seq<Context>)>)
    : Option<Context>
  {
    if update == [] then None
    else
      var news := BroughtAny(s, ls, i, update[|update| - 1].0, update[|update| - 1].1);
      if news.Some? then news else BroughtAnyByAll(s, ls, i, update[..|update| - 1])
  }

  lemma {:induction false} AbsorbAllOnlyMembers(ls: Table, c: ChannelId, members: set<Instance>, cache: Cache,
                                                incoming: seq<Context>, i: Instance, r: Option<Context>)
    requires i !in members
    ensures DeliverAny(r, AbsorbAll(ls, c, members, cache, incoming).queue, i) == r
  {
    if incoming != [] {
      var ctx := incoming[0];
      var rest := AbsorbAll(ls, c, members, cache, incoming[1..]);
      var heard := ContextListenersFor(ls, Some(ctx.typ), Some(c), true);
      var sends := TypedSends(heard, members, ctx);
      AbsorbAllOnlyMembers(ls, c, members, cache, incoming[1..], i, r);
      SendsCarry(heard, c, members, ctx);
      ChangeReachesIff(ls, c, members, i, ctx);
      DeliverAnyUniform(DeliverAny(r, rest.queue, i), sends, i, ctx);
      DeliverAnyAppend(r, rest.queue, sends, i);
    }
  }

  lemma ProcessDeliversAny(s: State, ls: Table, c: ChannelId, incoming: seq<Context>, i: Instance, r: Option<Context>)
    requires incoming != []
    ensures var news := BroughtAny(s, ls, i, c, incoming);
            DeliverAny(r, Process(s, ls, c, incoming).queue, i) == if news.Some? then news else r
  {
    if KnownChannel(s, c) {
      var members, cache := MemberSet(s, c), Contexts(s, c);
      var o := AbsorbAll(ls, c, members, cache, incoming);
      var sends := UntypedSends(ls, c, members, incoming[0]);
      if i in members {
        AbsorbAllBrings(ls, c, members, cache, incoming, i, r);
      } else {
        AbsorbAllOnlyMembers(ls, c, members, cache, incoming, i, r);
      }
      AbsorbAllLookup(ls, c, members, cache, incoming, LAST_CONTEXT_KEY);
      UntypedReachesIff(ls, c, members, incoming[0], i);
      SendsCarry(ls, c, members, incoming[0]);
      DeliverAnyUniform(DeliverAny(r, o.queue, i), sends, i, incoming[0]);
      DeliverAnyAppend(r, o.queue, sends, i);
    }
  }

  lemma {:induction false} ApplyAllDeliversAny(s: State, ls: Table, update: seq<(ChannelId, seq<Context>)>,
                                               i: Instance, r: Option<Context>)
    requires DistinctChannels(update)
    ensures var news := BroughtAnyByAll(s, ls, i, update);
            DeliverAny(r, ApplyAll(s, ls, update).1, i) == if news.Some? then news else r
  {
    if update != [] {
      var front := update[..|update| - 1];
      var (c, incoming) := update[|update| - 1];
      var (before, sent) := ApplyAll(s, ls, front);
      ApplyAllDeliversAny(s, ls, front, i, r);
      if incoming != [] {
        UpdateSparesOthers(s, ls, front, c);
        ProcessLooksAtItsChannel(s, before, ls, c, incoming);
        ProcessDeliversAny(s, ls, c, incoming, i, DeliverAny(r, sent, i));
        DeliverAnyAppend(r, sent, Process(s, ls, c, incoming).queue, i);
      }
    }
  }

  /** After a whole update, a member with an untyped listener has a channel's new
      last context exactly if that is what the last channel to send it anything
      leaves with it, or nothing is sent and the last context stays. */
  lemma WholeUpdateUntypedConvergesIff(s: State, ls: Table, update: seq<(ChannelId, seq<Context>)>, k: nat,
                                       i: Instance, r: Option<Context>)
    requires DistinctChannels(update) && k < |update| && update[k].1 != []
    requires var c := update[k].0;
             && KnownChannel(s, c) && i in MemberSet(s, c) && ListensToAll(ls, c, i)
             && r == Lookup(Contexts(s, c), LAST_CONTEXT_KEY)
    ensures var (c, incoming) := update[k];
            var (after, sent) := ApplyAll(s, ls, update);
            var news := BroughtAnyByAll(s, ls, i, update);
            DeliverAny(r, sent, i) == Lookup(Contexts(after, c), LAST_CONTEXT_KEY)
            <==> if news.Some? then news == Some(incoming[0])
                 else Lookup(Contexts(s, c), LAST_CONTEXT_KEY) == Some(incoming[0])
  {
    var (c, incoming) := update[k];
    ApplyAllDeliversAny(s, ls, update, i, r);
    UpdateIsPerChannel(s, ls, update, k);
    MergeClosedForm(ls, c, MemberSet(s, c), Contexts(s, c), incoming, LAST_CONTEXT_KEY);
  }
}
