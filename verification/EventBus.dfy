/** Channel events fanned out to local subscribers and, through a shared log,
    to other workers. */
module EventBus {
  import opened Basics

  // ---------- Fan-out and publication ----------

  /** A channel event; `body` stands for everything but the channel. */
  datatype Event = Event(channel: string, body: string)

  /** `id` stands for the subscription name `sub_<id>`; without a filter all
      channels are followed. */
  datatype Subscription = Subscription(id: nat, channelFilter: Option<string>)

  predicate Follows(s: Subscription, channel: string) {
    s.channelFilter == None || s.channelFilter == Some(channel)
  }

  function Subscribers(subs: seq<Subscription>, channel: string): seq<nat> {
    if subs == [] then []
    else
      var s := subs[|subs| - 1];
      Subscribers(subs[..|subs| - 1], channel) + (if Follows(s, channel) then [s.id] else [])
  }

  /** Which emissions are published: the code skips those that came from the
      log; the other rule is there to show what the guard is for. */
  datatype Rule = SkipRemote | PublishAll

  predicate Publishes(rule: Rule, hasAdapter: bool, remote: bool) {
    hasAdapter && (rule == SkipRemote ==> !remote)
  }

  /** Subscription ids ascend: each was handed out after those before it. */
  ghost predicate Ascending(ids: seq<nat>) {
    forall a, b :: 0 <= a < b < |ids| ==> ids[a] < ids[b]
  }

  class ChannelEvents {
    var subscriptions: seq<Subscription>
    var nextId: nat
    var hasAdapter: bool

    ghost predicate Valid()
      reads this
    {
      && (forall s :: s in subscriptions ==> s.id < nextId)
      && (forall a, b :: 0 <= a < b < |subscriptions| ==> subscriptions[a].id < subscriptions[b].id)
    }

    constructor (hasAdapter: bool)
      ensures Valid() && subscriptions == [] && this.hasAdapter == hasAdapter
    {
      subscriptions, nextId, this.hasAdapter := [], 1, hasAdapter;
    }

    method Subscribe(channelFilter: Option<string>) returns (id: nat)
      requires Valid()
      modifies this
      ensures Valid() && subscriptions == old(subscriptions) + [Subscription(id, channelFilter)]
      ensures forall s :: s in old(subscriptions) ==> s.id != id
      ensures hasAdapter == old(hasAdapter)
    {
      id := nextId;
      nextId := nextId + 1;
      subscriptions := subscriptions + [Subscription(id, channelFilter)];
    }

    /** `emit_event`: calls the subscribers that follow the channel, each once
        and in the order of their subscription, and nobody else; publishes
        unless the event came from the log. */
    method EmitEvent(e: Event, remote: bool) returns (called: seq<nat>, publish: bool)
      requires Valid()
      ensures Ascending(called)
      ensures forall id :: id in called <==> exists s :: s in subscriptions && s.id == id && Follows(s, e.channel)
      ensures called == Subscribers(subscriptions, e.channel)
      ensures publish == Publishes(SkipRemote, hasAdapter, remote)
    {
      called := [];
      for k := 0 to |subscriptions|
        invariant called == Subscribers(subscriptions[..k], e.channel)
      {
        assert subscriptions[..k + 1][..k] == subscriptions[..k];
        var s := subscriptions[k];
        if Follows(s, e.channel) {
          called := called + [s.id];
        }
      }
      assert subscriptions[..|subscriptions|] == subscriptions;
      SubscribersExact(subscriptions, e.channel);
      publish := !remote && hasAdapter;
    }
  }

  lemma {:induction false} SubscribersExact(subs: seq<Subscription>, channel: string)
    requires forall a, b :: 0 <= a < b < |subs| ==> subs[a].id < subs[b].id
    ensures Ascending(Subscribers(subs, channel))
    ensures forall id :: id in Subscribers(subs, channel)
                         <==> exists s :: s in subs && s.id == id && Follows(s, channel)
  {
    if subs != [] {
      var front := subs[..|subs| - 1];
      assert subs == front + [subs[|subs| - 1]];
      SubscribersExact(front, channel);
      var ids := Subscribers(front, channel);
      forall k | 0 <= k < |ids| ensures ids[k] < subs[|subs| - 1].id {
        assert ids[k] in ids;
        var s :| s in front && s.id == ids[k];
      }
    }
  }

  // ---------- Watching the log ----------

  /** An item of a watch response; `data` is absent when the item has no value. */
  datatype Item = Item(key: Option<string>, data: Option<Event>)

  datatype Progress = Progress(delivered: seq<Item>, seen: set<string>)

  predicate Skips(seen: set<string>, item: Item) {
    (item.key.Some? && item.key.value in seen) || item.data == None
  }

  function Take(p: Progress, item: Item): Progress {
    if Skips(p.seen, item) then p
    else Progress(p.delivered + [item], if item.key.Some? then p.seen + {item.key.value} else p.seen)
  }

  /** `_process_watch_response` over one response. */
  function Watch(p: Progress, body: seq<Item>): Progress {
    if body == [] then p else Take(Watch(p, body[..|body| - 1]), body[|body| - 1])
  }

  /** A whole watch loop: one response after another, one set of seen keys. */
  function WatchAll(bodies: seq<seq<Item>>): Progress {
    if bodies == [] then Progress([], {}) else Watch(WatchAll(bodies[..|bodies| - 1]), bodies[|bodies| - 1])
  }

  method ProcessWatchResponse(body: seq<Item>, seenKeys: set<string>) returns (delivered: seq<Item>, seen: set<string>)
    ensures Progress(delivered, seen) == Watch(Progress([], seenKeys), body)
  {
    delivered, seen := [], seenKeys;
    for k := 0 to |body|
      invariant Progress(delivered, seen) == Watch(Progress([], seenKeys), body[..k])
    {
      assert body[..k + 1][..k] == body[..k];
      var item := body[k];
      if item.key.Some? && item.key.value in seen {
        continue;
      }
      if item.data == None {
        continue;
      }
      delivered := delivered + [item];
      if item.key.Some? {
        seen := seen + {item.key.value};
      }
    }
    assert body[..|body|] == body;
  }

  /** The number of delivered items with key `k`. */
  function TimesDelivered(delivered: seq<Item>, k: string): nat {
    if delivered == [] then 0
    else TimesDelivered(delivered[..|delivered| - 1], k) + (if delivered[|delivered| - 1].key == Some(k) then 1 else 0)
  }

  /** Each key is delivered once if it was seen and never otherwise. */
  ghost predicate Exact(p: Progress) {
    forall k :: TimesDelivered(p.delivered, k) == if k in p.seen then 1 else 0
  }

  lemma TakeKeepsExact(p: Progress, item: Item)
    requires Exact(p)
    ensures Exact(Take(p, item))
  {
  }

  lemma {:induction false} WatchKeepsExact(p: Progress, body: seq<Item>)
    requires Exact(p)
    ensures Exact(Watch(p, body))
    ensures p.seen <= Watch(p, body).seen
    ensures forall k :: k in Watch(p, body).seen
                        <==> k in p.seen || exists x :: x in body && x.key == Some(k) && x.data.Some?
  {
    if body != [] {
      var front := body[..|body| - 1];
      assert body == front + [body[|body| - 1]];
      WatchKeepsExact(p, front);
      TakeKeepsExact(Watch(p, front), body[|body| - 1]);
    }
  }

  lemma {:induction false} WatchDeliversListed(p: Progress, body: seq<Item>)
    ensures forall x :: x in Watch(p, body).delivered ==> x in p.delivered || (x in body && x.data.Some?)
  {
    if body != [] {
      assert body == body[..|body| - 1] + [body[|body| - 1]];
      WatchDeliversListed(p, body[..|body| - 1]);
    }
  }

  function Flatten(bodies: seq<seq<Item>>): seq<Item> {
    if bodies == [] then [] else Flatten(bodies[..|bodies| - 1]) + bodies[|bodies| - 1]
  }

  lemma {:induction false} WatchAppend(p: Progress, a: seq<Item>, b: seq<Item>)
    ensures Watch(p, a + b) == Watch(Watch(p, a), b)
  {
    if b == [] {
      assert a + b == a;
    } else {
      assert (a + b)[..|a + b| - 1] == a + b[..|b| - 1];
      WatchAppend(p, a, b[..|b| - 1]);
    }
  }

  /** How the log is cut into responses does not matter: the loop delivers what
      one response with everything would. */
  lemma {:induction false} CutIsIrrelevant(bodies: seq<seq<Item>>)
    ensures WatchAll(bodies) == Watch(Progress([], {}), Flatten(bodies))
  {
    if bodies != [] {
      CutIsIrrelevant(bodies[..|bodies| - 1]);
      WatchAppend(Progress([], {}), Flatten(bodies[..|bodies| - 1]), bodies[|bodies| - 1]);
    }
  }

  /** Over all responses, a key is delivered exactly once if any response has it
      with a value, and otherwise not at all. */
  lemma EachKeyOnce(bodies: seq<seq<Item>>, k: string)
    ensures TimesDelivered(WatchAll(bodies).delivered, k)
            == if exists x :: x in Flatten(bodies) && x.key == Some(k) && x.data.Some? then 1 else 0
  {
    CutIsIrrelevant(bodies);
    assert Exact(Progress([], {}));
    WatchKeepsExact(Progress([], {}), Flatten(bodies));
  }

  /** The item at position `k` is the first with its key that has a value, or has
      a value and no key. */
  predicate News(items: seq<Item>, k: nat)
    requires k < |items|
  {
    && items[k].data.Some?
    && (items[k].key.Some? ==> forall x :: x in items[..k] && x.data.Some? ==> x.key != items[k].key)
  }

  function NewsSlots(items: seq<Item>): seq<Option<Item>> {
    seq(|items|, k requires 0 <= k < |items| => if News(items, k) then Some(items[k]) else None)
  }

  lemma {:induction false} WatchDeliversNews(items: seq<Item>)
    ensures Watch(Progress([], {}), items).delivered == Picked(NewsSlots(items))
  {
    if items != [] {
      var front, last := items[..|items| - 1], items[|items| - 1];
      assert items == front + [last];
      WatchDeliversNews(front);
      assert Exact(Progress([], {}));
      WatchKeepsExact(Progress([], {}), front);
      forall k | 0 <= k < |front| ensures News(items, k) <==> News(front, k) {
        assert items[..k] == front[..k];
      }
      var slot := if News(items, |front|) then Some(last) else None;
      assert NewsSlots(items) == NewsSlots(front) + [slot];
      PickedLast(NewsSlots(front), slot);
    }
  }

  /** A watch loop delivers, in order, exactly the items that have a value and are
      the first such with their key, and all those without a key. */
  lemma LoopDeliversNews(bodies: seq<seq<Item>>)
    ensures WatchAll(bodies).delivered == Picked(NewsSlots(Flatten(bodies)))
  {
    CutIsIrrelevant(bodies);
    WatchDeliversNews(Flatten(bodies));
  }

  // ---------- Workers ----------

  datatype Entry = Entry(key: string, event: Event)

  /** One run of `emit_event`: the subscribers it called. */
  datatype Emission = Emission(event: Event, remote: bool, called: seq<nat>)

  /** A worker, the emissions it has made so far, and its watch of the log. */
  datatype Worker = Worker(
    subscriptions: seq<Subscription>,
    hasAdapter: bool,
    emissions: seq<Emission>,
    watched: Progress)

  /** `tasks` are the publications scheduled but not run. History: `emitted`
      holds the local emissions, `unshared` those of them that met no adapter,
      `failed` the publications that were dropped. */
  datatype Cluster = Cluster(
    workers: map<string, Worker>,
    log: seq<Entry>,
    tasks: multiset<Event>,
    emitted: multiset<Event>,
    unshared: multiset<Event>,
    failed: multiset<Event>)

  datatype BusStep =
    | Start(worker: string, hasAdapter: bool)
    | ChangeSubscriptions(worker: string, subscriptions: seq<Subscription>)
    | EmitLocal(worker: string, event: Event)
    | Publish(event: Event, key: string)
    | FailToPublish(event: Event)
    | Receive(worker: string, picks: seq<nat>)

  function ItemOf(e: Entry): Item {
    Item(Some(e.key), Some(e.event))
  }

  /** A response holds any log entries, in any order, any number of times. */
  function Body(log: seq<Entry>, picks: seq<nat>): seq<Item>
    requires forall k :: 0 <= k < |picks| ==> picks[k] < |log|
  {
    seq(|picks|, k requires 0 <= k < |picks| => ItemOf(log[picks[k]]))
  }

  function Keys(log: seq<Entry>): set<string> {
    set e | e in log :: e.key
  }

  /** `emit_event` on worker `w`: its subscribers are called, and a publication
      is scheduled if the rule says so. */
  function Emit(rule: Rule, c: Cluster, w: string, e: Event, remote: bool): Cluster
    requires w in c.workers
  {
    var x := c.workers[w];
    var called := Subscribers(x.subscriptions, e.channel);
    c.(workers := c.workers[w := x.(emissions := x.emissions + [Emission(e, remote, called)])],
    tasks := if Publishes(rule, x.hasAdapter, remote) then c.tasks + multiset{e} else c.tasks)
  }

  /** An emission calls the subscribers that follow its channel, each once and in
      the order of their subscription, and nobody else. */
  lemma EmissionCallsFollowers(rule: Rule, c: Cluster, w: string, e: Event, remote: bool)
    requires w in c.workers
    requires var subs := c.workers[w].subscriptions; forall a, b :: 0 <= a < b < |subs| ==> subs[a].id < subs[b].id
    ensures var (x, y) := (c.workers[w], Emit(rule, c, w, e, remote).workers[w]);
            && |y.emissions| == |x.emissions| + 1 && y.emissions[..|x.emissions|] == x.emissions
            && var m := y.emissions[|x.emissions|];
               && m.event == e && m.remote == remote && Ascending(m.called)
               && forall id :: id in m.called
                               <==> exists s :: s in x.subscriptions && s.id == id && Follows(s, e.channel)
  {
    SubscribersExact(c.workers[w].subscriptions, e.channel);
  }

  /** An item that is not skipped is handed to the event handler, which emits it
      again as a remote event. */
  function ReceiveItem(rule: Rule, c: Cluster, w: string, item: Item): Cluster
    requires w in c.workers
  {
    var x := c.workers[w];
    if Skips(x.watched.seen, item) then c
    else
      Emit(rule, c.(workers := c.workers[w := x.(watched := Take(x.watched, item))]), w, item.data.value, true)
  }

  function ReceiveAll(rule: Rule, c: Cluster, w: string, body: seq<Item>): (d: Cluster)
    requires w in c.workers
    ensures w in d.workers
  {
    if body == [] then c
    else ReceiveItem(rule, ReceiveAll(rule, c, w, body[..|body| - 1]), w, body[|body| - 1])
  }

  predicate Possible(c: Cluster, step: BusStep) {
    match step
    case Start(w, _) => w !in c.workers
    case ChangeSubscriptions(w, _) => w in c.workers
    case EmitLocal(w, _) => w in c.workers
    case Publish(e, key) => e in c.tasks && key !in Keys(c.log)
    case FailToPublish(e) => e in c.tasks
    case Receive(w, picks) =>
      w in c.workers && c.workers[w].hasAdapter && forall k :: 0 <= k < |picks| ==> picks[k] < |c.log|
  }

  function BusNext(rule: Rule, c: Cluster, step: BusStep): Cluster
    requires Possible(c, step)
  {
    match step
    case Start(w, hasAdapter) => c.(workers := c.workers[w := Worker([], hasAdapter, [], Progress([], {}))])
    case ChangeSubscriptions(w, subs) => c.(workers := c.workers[w := c.workers[w].(subscriptions := subs)])
    case EmitLocal(w, e) =>
      var d := Emit(rule, c, w, e, false);
      d.(emitted := d.emitted + multiset{e},
      unshared := if c.workers[w].hasAdapter then d.unshared else d.unshared + multiset{e})
    case Publish(e, key) => c.(log := c.log + [Entry(key, e)], tasks := c.tasks - multiset{e})
    case FailToPublish(e) => c.(tasks := c.tasks - multiset{e}, failed := c.failed + multiset{e})
    case Receive(w, picks) => ReceiveAll(rule, c, w, Body(c.log, picks))
  }

  const NO_WORKERS: Cluster := Cluster(map[], [], multiset{}, multiset{}, multiset{}, multiset{})

  /** A step that is not possible does not happen. */
  function RunBus(rule: Rule, steps: seq<BusStep>): Cluster {
    if steps == [] then NO_WORKERS
    else
      var c := RunBus(rule, steps[..|steps| - 1]);
      if Possible(c, steps[|steps| - 1]) then BusNext(rule, c, steps[|steps| - 1]) else c
  }

  // ---------- What every run keeps ----------

  function Events(log: seq<Entry>): multiset<Event> {
    if log == [] then multiset{} else Events(log[..|log| - 1]) + multiset{log[|log| - 1].event}
  }

  lemma {:induction false} EventsCount(log: seq<Entry>)
    ensures |Events(log)| == |log|
  {
    if log != [] {
      EventsCount(log[..|log| - 1]);
    }
  }

  /** A delivered item is a log entry, key and event. */
  ghost predicate Genuine(log: seq<Entry>, delivered: seq<Item>) {
    forall x :: x in delivered ==> x.key.Some? && x.data.Some? && Entry(x.key.value, x.data.value) in log
  }

  /** What a worker has taken from the log: each key once, and only entries. */
  ghost predicate InStep(log: seq<Entry>, p: Progress) {
    Exact(p) && p.seen <= Keys(log) && Genuine(log, p.delivered)
  }

  ghost predicate UniqueKeys(log: seq<Entry>) {
    forall a, b :: 0 <= a < b < |log| ==> log[a].key != log[b].key
  }

  function Given(emissions: seq<Emission>, e: Event, remote: bool): nat {
    if emissions == [] then 0
    else
      var last := emissions[|emissions| - 1];
      Given(emissions[..|emissions| - 1], e, remote) + (if last.event == e && last.remote == remote then 1 else 0)
  }

  /** How often a worker's subscribers were given an event, from either side. */
  function TimesGiven(x: Worker, e: Event): nat {
    Given(x.emissions, e, false) + Given(x.emissions, e, true)
  }

  /** The log entries with event `e` among those with seen keys. */
  function SeenEntries(log: seq<Entry>, seen: set<string>, e: Event): nat {
    if log == [] then 0
    else
      var last := log[|log| - 1];
      SeenEntries(log[..|log| - 1], seen, e) + (if last.event == e && last.key in seen then 1 else 0)
  }

  /** Every local emission is in the log, on its way there, or lost. */
  ghost predicate Accounted(c: Cluster) {
    c.emitted == Events(c.log) + c.tasks + c.failed + c.unshared
  }

  /** A worker's remote emissions are the entries it has seen. */
  ghost predicate Mirrors(log: seq<Entry>, x: Worker) {
    InStep(log, x.watched) && forall e :: Given(x.emissions, e, true) == SeenEntries(log, x.watched.seen, e)
  }

  ghost predicate BusInv(c: Cluster) {
    Accounted(c) && UniqueKeys(c.log) && forall w :: w in c.workers ==> Mirrors(c.log, c.workers[w])
  }

  lemma {:induction false} SeenUnknownKeys(log: seq<Entry>, seen: set<string>, key: string, e: Event)
    requires key !in Keys(log)
    ensures SeenEntries(log, seen + {key}, e) == SeenEntries(log, seen, e)
  {
    if log != [] {
      var front := log[..|log| - 1];
      assert log == front + [log[|log| - 1]];
      assert log[|log| - 1] in log && forall x :: x in front ==> x in log;
      SeenUnknownKeys(front, seen, key, e);
    }
  }

  /** Seeing one more entry of a log with unique keys counts it once. */
  lemma {:induction false} SeenOneMore(log: seq<Entry>, seen: set<string>, x: Entry, e: Event)
    requires UniqueKeys(log) && x in log && x.key !in seen
    ensures SeenEntries(log, seen + {x.key}, e) == SeenEntries(log, seen, e) + (if x.event == e then 1 else 0)
  {
    var front := log[..|log| - 1];
    assert log == front + [log[|log| - 1]];
    if log[|log| - 1] == x {
      assert x.key !in Keys(front);
      SeenUnknownKeys(front, seen, x.key, e);
    } else {
      SeenOneMore(front, seen, x, e);
    }
  }

  lemma TakeKeepsInStep(log: seq<Entry>, p: Progress, x: Entry)
    requires InStep(log, p) && x in log
    ensures InStep(log, Take(p, ItemOf(x)))
  {
    TakeKeepsExact(p, ItemOf(x));
  }

  lemma GivenAppend(emissions: seq<Emission>, m: Emission, e: Event, remote: bool)
    ensures Given(emissions + [m], e, remote)
            == Given(emissions, e, remote) + (if m.event == e && m.remote == remote then 1 else 0)
  {
    assert (emissions + [m])[..|emissions|] == emissions;
  }

  /** An entry of the log, seen or not, keeps everything; this rests on the
      rule, which schedules no publication for it. */
  lemma ReceiveItemKeepsInv(c: Cluster, w: string, x: Entry)
    requires BusInv(c) && w in c.workers && x in c.log
    ensures BusInv(ReceiveItem(SkipRemote, c, w, ItemOf(x)))
  {
    var y := c.workers[w];
    var d := ReceiveItem(SkipRemote, c, w, ItemOf(x));
    if !Skips(y.watched.seen, ItemOf(x)) {
      var z := d.workers[w];
      TakeKeepsInStep(c.log, y.watched, x);
      forall e ensures Given(z.emissions, e, true) == SeenEntries(c.log, z.watched.seen, e) {
        GivenAppend(y.emissions, z.emissions[|z.emissions| - 1], e, true);
        SeenOneMore(c.log, y.watched.seen, x, e);
      }
      assert Mirrors(d.log, z);
    }
  }

  /** What a reception leaves alone, and what it watches. */
  lemma {:induction false} ReceiveAllKeepsInv(c: Cluster, w: string, body: seq<Item>)
    requires BusInv(c) && w in c.workers && Genuine(c.log, body)
    ensures var d := ReceiveAll(SkipRemote, c, w, body);
            && BusInv(d) && d == c.(workers := d.workers)
            && d.workers[w].watched == Watch(c.workers[w].watched, body)
            && forall e :: Given(d.workers[w].emissions, e, false) == Given(c.workers[w].emissions, e, false)
  {
    if body != [] {
      var front := body[..|body| - 1];
      var item := body[|body| - 1];
      assert body == front + [item];
      ReceiveAllKeepsInv(c, w, front);
      var d := ReceiveAll(SkipRemote, c, w, front);
      assert item in body;
      var y := Entry(item.key.value, item.data.value);
      ReceiveItemKeepsInv(d, w, y);
      if !Skips(d.workers[w].watched.seen, item) {
        forall e ensures Given(ReceiveItem(SkipRemote, d, w, item).workers[w].emissions, e, false)
                         == Given(d.workers[w].emissions, e, false) {
          GivenAppend(d.workers[w].emissions,
                      Emission(y.event, true, Subscribers(d.workers[w].subscriptions, y.event.channel)), e, false);
        }
      }
    }
  }

  lemma BodyIsGenuine(log: seq<Entry>, picks: seq<nat>)
    requires forall k :: 0 <= k < |picks| ==> picks[k] < |log|
    ensures Genuine(log, Body(log, picks))
  {
    forall x | x in Body(log, picks)
      ensures x.key.Some? && x.data.Some? && Entry(x.key.value, x.data.value) in log
    {
      var j :| 0 <= j < |picks| && Body(log, picks)[j] == x;
      assert log[picks[j]] in log;
    }
  }

  lemma InStepAsLogGrows(log: seq<Entry>, e: Entry, p: Progress)
    requires InStep(log, p)
    ensures InStep(log + [e], p)
  {
  }

  lemma MirrorsAsLogGrows(log: seq<Entry>, e: Entry, x: Worker)
    requires Mirrors(log, x) && e.key !in Keys(log)
    ensures Mirrors(log + [e], x)
  {
    InStepAsLogGrows(log, e, x.watched);
    assert (log + [e])[..|log|] == log;
  }

  lemma PublishKeepsAccount(c: Cluster, e: Event, key: string)
    requires Accounted(c) && e in c.tasks
    ensures Accounted(c.(log := c.log + [Entry(key, e)], tasks := c.tasks - multiset{e}))
  {
    assert (c.log + [Entry(key, e)])[..|c.log|] == c.log;
    assert c.tasks == (c.tasks - multiset{e}) + multiset{e};
  }

  lemma PublishKeepsInv(c: Cluster, e: Event, key: string)
    requires BusInv(c) && e in c.tasks && key !in Keys(c.log)
    ensures BusInv(BusNext(SkipRemote, c, Publish(e, key)))
  {
    var grown := c.log + [Entry(key, e)];
    PublishKeepsAccount(c, e, key);
    assert forall x :: x in c.log ==> x.key in Keys(c.log);
    forall w | w in c.workers ensures Mirrors(grown, c.workers[w]) {
      MirrorsAsLogGrows(c.log, Entry(key, e), c.workers[w]);
    }
  }

  lemma FailureKeepsInv(c: Cluster, e: Event)
    requires BusInv(c) && e in c.tasks
    ensures BusInv(BusNext(SkipRemote, c, FailToPublish(e)))
  {
    assert c.tasks == (c.tasks - multiset{e}) + multiset{e};
  }

  lemma WorkerUpdateKeepsInv(c: Cluster, w: string, x: Worker)
    requires BusInv(c) && Mirrors(c.log, x)
    ensures BusInv(c.(workers := c.workers[w := x]))
  {
  }

  lemma EmitLocalKeepsInv(c: Cluster, w: string, e: Event)
    requires BusInv(c) && w in c.workers
    ensures BusInv(BusNext(SkipRemote, c, EmitLocal(w, e)))
  {
    var x := c.workers[w];
    var d := BusNext(SkipRemote, c, EmitLocal(w, e));
    var m := Emission(e, false, Subscribers(x.subscriptions, e.channel));
    forall f ensures Given(d.workers[w].emissions, f, true) == Given(x.emissions, f, true) {
      GivenAppend(x.emissions, m, f, true);
    }
    assert Mirrors(c.log, d.workers[w]);
  }

  lemma {:induction false} NothingSeen(log: seq<Entry>, e: Event)
    ensures SeenEntries(log, {}, e) == 0
  {
    if log != [] {
      NothingSeen(log[..|log| - 1], e);
    }
  }

  lemma BusStepKeepsInv(c: Cluster, step: BusStep)
    requires BusInv(c) && Possible(c, step)
    ensures BusInv(BusNext(SkipRemote, c, step))
  {
    match step
    case Start(w, hasAdapter) =>
      var x := Worker([], hasAdapter, [], Progress([], {}));
      forall e ensures SeenEntries(c.log, {}, e) == 0 {
        NothingSeen(c.log, e);
      }
      WorkerUpdateKeepsInv(c, w, x);
    case ChangeSubscriptions(w, subs) => WorkerUpdateKeepsInv(c, w, c.workers[w].(subscriptions := subs));
    case EmitLocal(w, e) => EmitLocalKeepsInv(c, w, e);
    case Publish(e, key) => PublishKeepsInv(c, e, key);
    case FailToPublish(e) => FailureKeepsInv(c, e);
    case Receive(w, picks) =>
      BodyIsGenuine(c.log, picks);
      ReceiveAllKeepsInv(c, w, Body(c.log, picks));
  }

  lemma {:induction false} RunKeepsBus(steps: seq<BusStep>)
    ensures BusInv(RunBus(SkipRemote, steps))
  {
    if steps != [] {
      RunKeepsBus(steps[..|steps| - 1]);
      if Possible(RunBus(SkipRemote, steps[..|steps| - 1]), steps[|steps| - 1]) {
        BusStepKeepsInv(RunBus(SkipRemote, steps[..|steps| - 1]), steps[|steps| - 1]);
      }
    }
  }

  // ---------- No amplification ----------

  /** However many workers share the log, re-emission never feeds it: the log
      holds no event more often than it was emitted locally. */
  lemma NoAmplification(steps: seq<BusStep>)
    ensures var c := RunBus(SkipRemote, steps);
            Events(c.log) <= c.emitted && |c.log| <= |c.emitted|
  {
    var c := RunBus(SkipRemote, steps);
    RunKeepsBus(steps);
    EventsCount(c.log);
    assert |c.emitted| == |Events(c.log)| + |c.tasks| + |c.failed| + |c.unshared|;
  }

  function Key(n: nat): string {
    seq(n, _ => 'k')
  }

  /** `n + 1` entries of one event stand in the log, and `w` has not read the
      last of them. */
  ghost predicate Flooded(c: Cluster, w: string, e: Event, n: nat) {
    && |c.log| == n + 1 && c.emitted == multiset{e}
    && (forall k :: 0 <= k <= n ==> c.log[k] == Entry(Key(k), e))
    && w in c.workers && c.workers[w].hasAdapter
    && forall k :: k >= n ==> Key(k) !in c.workers[w].watched.seen
  }

  /** Without the guard, reading the last entry schedules it once more. */
  lemma UnguardedRead(c: Cluster, w: string, e: Event, n: nat)
    requires Flooded(c, w, e, n)
    ensures Possible(c, Receive(w, [n]))
    ensures var d := BusNext(PublishAll, c, Receive(w, [n]));
            && e in d.tasks && d.log == c.log && d.emitted == c.emitted
            && w in d.workers && d.workers[w].hasAdapter
            && d.workers[w].watched.seen == c.workers[w].watched.seen + {Key(n)}
  {
    var item := ItemOf(c.log[n]);
    var body := Body(c.log, [n]);
    assert body == [item] && body[..0] == [];
    assert ReceiveAll(PublishAll, c, w, []) == c;
    assert ReceiveAll(PublishAll, c, w, body) == ReceiveItem(PublishAll, c, w, item);
  }

  lemma UnguardedRound(c: Cluster, w: string, e: Event, n: nat)
    requires Flooded(c, w, e, n)
    ensures Possible(c, Receive(w, [n]))
    ensures var d := BusNext(PublishAll, c, Receive(w, [n]));
            && Possible(d, Publish(e, Key(n + 1)))
            && Flooded(BusNext(PublishAll, d, Publish(e, Key(n + 1))), w, e, n + 1)
  {
    UnguardedRead(c, w, e, n);
    forall k ensures |Key(k)| == k {
    }
    forall x | x in c.log ensures x.key != Key(n + 1) {
      var k :| 0 <= k <= n && c.log[k] == x;
    }
  }

  lemma RunBusAppend(rule: Rule, steps: seq<BusStep>, step: BusStep)
    requires Possible(RunBus(rule, steps), step)
    ensures RunBus(rule, steps + [step]) == BusNext(rule, RunBus(rule, steps), step)
  {
    assert (steps + [step])[..|steps|] == steps;
  }

  lemma FirstPublication(e: Event) returns (steps: seq<BusStep>)
    ensures Flooded(RunBus(PublishAll, steps), "w", e, 0)
  {
    var started := [] + [Start("w", true)];
    var emitted := started + [EmitLocal("w", e)];
    RunBusAppend(PublishAll, [], Start("w", true));
    RunBusAppend(PublishAll, started, EmitLocal("w", e));
    var c := RunBus(PublishAll, emitted);
    EmittedOnce(e);
    RunBusAppend(PublishAll, emitted, Publish(e, Key(0)));
    steps := emitted + [Publish(e, Key(0))];
    assert c == BusNext(PublishAll, BusNext(PublishAll, NO_WORKERS, Start("w", true)), EmitLocal("w", e));
  }

  lemma EmittedOnce(e: Event)
    ensures Possible(NO_WORKERS, Start("w", true))
    ensures var s := BusNext(PublishAll, NO_WORKERS, Start("w", true));
            && Possible(s, EmitLocal("w", e))
            && var c := BusNext(PublishAll, s, EmitLocal("w", e));
               && c.tasks == multiset{e} && c.emitted == multiset{e} && c.log == []
               && "w" in c.workers && c.workers["w"].hasAdapter && c.workers["w"].watched.seen == {}
  {
  }

  lemma UnguardedRoundRuns(before: seq<BusStep>, e: Event, n: nat) returns (steps: seq<BusStep>)
    requires Flooded(RunBus(PublishAll, before), "w", e, n)
    ensures Flooded(RunBus(PublishAll, steps), "w", e, n + 1)
  {
    var c := RunBus(PublishAll, before);
    UnguardedRound(c, "w", e, n);
    RunBusAppend(PublishAll, before, Receive("w", [n]));
    var read := before + [Receive("w", [n])];
    RunBusAppend(PublishAll, read, Publish(e, Key(n + 1)));
    steps := read + [Publish(e, Key(n + 1))];
  }

  /** Without the guard, one local emission can fill the log to any length: the
      worker publishes what it reads, and reads what it publishes. */
  lemma {:induction false} UnguardedLogGrows(e: Event, n: nat) returns (steps: seq<BusStep>)
    ensures Flooded(RunBus(PublishAll, steps), "w", e, n)
  {
    if n == 0 {
      steps := FirstPublication(e);
    } else {
      var before := UnguardedLogGrows(e, n - 1);
      steps := UnguardedRoundRuns(before, e, n - 1);
    }
  }

  /** The guard is exactly what keeps the log from outgrowing the emissions. */
  lemma NoAmplificationIff(rule: Rule)
    ensures (forall steps :: |RunBus(rule, steps).log| <= |RunBus(rule, steps).emitted|) <==> rule == SkipRemote
  {
    if rule == SkipRemote {
      forall steps ensures |RunBus(rule, steps).log| <= |RunBus(rule, steps).emitted| {
        NoAmplification(steps);
      }
    } else {
      var e := Event("c", "e");
      var steps := UnguardedLogGrows(e, 1);
      assert rule == PublishAll;
      assert |multiset{e}| == 1;
      assert |RunBus(rule, steps).log| > |RunBus(rule, steps).emitted|;
    }
  }

  // ---------- What a worker's subscribers are given ----------

  /** No worker takes a log entry twice, and none takes anything that is not in
      the log. */
  lemma EachEntryAtMostOncePerWorker(steps: seq<BusStep>, w: string, k: string)
    requires w in RunBus(SkipRemote, steps).workers
    ensures var c := RunBus(SkipRemote, steps);
            && TimesDelivered(c.workers[w].watched.delivered, k) <= 1
            && (TimesDelivered(c.workers[w].watched.delivered, k) == 1 ==> k in Keys(c.log))
            && Genuine(c.log, c.workers[w].watched.delivered)
  {
    RunKeepsBus(steps);
  }

  lemma {:induction false} NoneSeenIff(log: seq<Entry>, seen: set<string>, e: Event)
    ensures SeenEntries(log, seen, e) == 0 <==> forall x :: x in log && x.event == e ==> x.key !in seen
  {
    if log != [] {
      var front := log[..|log| - 1];
      assert log == front + [log[|log| - 1]];
      NoneSeenIff(front, seen, e);
    }
  }

  lemma {:induction false} AllSeen(log: seq<Entry>, seen: set<string>, e: Event)
    requires Keys(log) <= seen
    ensures SeenEntries(log, seen, e) == Events(log)[e]
  {
    if log != [] {
      var front := log[..|log| - 1];
      assert log == front + [log[|log| - 1]];
      assert log[|log| - 1].key in Keys(log);
      AllSeen(front, seen, e);
    }
  }

  /** A worker's subscribers are given an event exactly as often as the worker
      emitted it itself plus once for each log entry of it that the worker has
      received; so no more often than it emitted it exactly when it received
      none, not even of its own. */
  lemma GivenOnceIff(steps: seq<BusStep>, w: string, e: Event)
    requires w in RunBus(SkipRemote, steps).workers
    ensures var c := RunBus(SkipRemote, steps);
            var x := c.workers[w];
            && TimesGiven(x, e) == Given(x.emissions, e, false) + SeenEntries(c.log, x.watched.seen, e)
            && (TimesGiven(x, e) == Given(x.emissions, e, false)
                <==> forall entry :: entry in c.log && entry.event == e ==> entry.key !in x.watched.seen)
  {
    var c := RunBus(SkipRemote, steps);
    RunKeepsBus(steps);
    assert Mirrors(c.log, c.workers[w]);
    NoneSeenIff(c.log, c.workers[w].watched.seen, e);
  }

  /** A response with the whole log brings a worker up to date: its subscribers
      have been given each event as often as the worker emitted it itself plus
      as often as the log holds it. */
  lemma WholeLogDeliversAll(steps: seq<BusStep>, w: string, e: Event) returns (all: seq<nat>)
    requires w in RunBus(SkipRemote, steps).workers && RunBus(SkipRemote, steps).workers[w].hasAdapter
    ensures var c := RunBus(SkipRemote, steps);
            && Possible(c, Receive(w, all))
            && var x := BusNext(SkipRemote, c, Receive(w, all)).workers[w];
               TimesGiven(x, e) == Given(c.workers[w].emissions, e, false) + Events(c.log)[e]
  {
    var c := RunBus(SkipRemote, steps);
    all := seq(|c.log|, k => k);
    var body := Body(c.log, all);
    RunKeepsBus(steps);
    BodyIsGenuine(c.log, all);
    ReceiveAllKeepsInv(c, w, body);
    var x := BusNext(SkipRemote, c, Receive(w, all)).workers[w];
    assert Mirrors(c.log, c.workers[w]);
    WatchKeepsExact(c.workers[w].watched, body);
    forall y | y in c.log ensures y.key in x.watched.seen {
      var j :| 0 <= j < |c.log| && c.log[j] == y;
      assert body[j] == ItemOf(y) && body[j] in body;
    }
    AllSeen(c.log, x.watched.seen, e);
    assert Mirrors(c.log, x);
  }

  /** An event that only `w` emitted, all of whose publications went through, is
      given to `w`'s own subscribers exactly twice as often as it was emitted
      once `w` has received the whole log: the log is not filtered by origin. */
  lemma OwnEventsComeTwice(steps: seq<BusStep>, w: string, e: Event) returns (all: seq<nat>)
    requires var c := RunBus(SkipRemote, steps);
             && w in c.workers && c.workers[w].hasAdapter
             && c.emitted[e] == Given(c.workers[w].emissions, e, false)
             && e !in c.tasks && e !in c.failed && e !in c.unshared
    ensures var c := RunBus(SkipRemote, steps);
            && Possible(c, Receive(w, all))
            && TimesGiven(BusNext(SkipRemote, c, Receive(w, all)).workers[w], e) == 2 * c.emitted[e]
  {
    RunKeepsBus(steps);
    all := WholeLogDeliversAll(steps, w, e);
  }
}
