/** Where broadcasts and intents go. */
module Routing {
  import opened Basics
  import opened Channels
  import opened Listeners
  import Apps

  // ---------- Broadcasts ----------

  /** The channel a broadcast belongs to: the named one, or else the source's
      current channel. */
  function ResolvedChannel(s: State, source: Instance, channel: Option<ChannelId>): Option<ChannelId> {
    if channel.Some? || source == "" then channel else CurrentChannel(s, source)
  }

  /** A listener hears a context type on a channel: without a channel, every
      listener of the type does; with one, those on it and the global ones. */
  predicate Hears(l: Listener, typ: string, channel: Option<ChannelId>) {
    OfType(l, typ) && (channel == None || l.topic.contextChannel == channel || l.topic.contextChannel == None)
  }

  predicate OfType(l: Listener, typ: string) {
    l.topic.OnContext? && (l.topic.contextType == None || l.topic.contextType == Some(typ))
  }

  predicate Named(channel: Option<ChannelId>) {
    channel.Some? && channel.value != ""
  }

  ghost function Targets(s: State, ls: Table, ctx: Context, source: Instance, channel: Option<ChannelId>)
    : set<Instance>
  {
    (set l | l in ls && Hears(l, ctx.typ, channel) :: l.instance)
    + (if Named(channel) then set i | i in Members(s, channel.value) else {})
    - {source}
  }

  class ContextRouter {
    const listeners: ListenerStore
    const manager: ChannelManager

    constructor (listeners: ListenerStore, manager: ChannelManager)
      ensures this.listeners == listeners && this.manager == manager
    {
      this.listeners, this.manager := listeners, manager;
    }

    /** The listeners' part of the targets. */
    method HearingInstances(typ: string, source: Instance, channel: Option<ChannelId>) returns (targets: set<Instance>)
      ensures targets == (set l | l in listeners.contextListeners && Hears(l, typ, channel) :: l.instance) - {source}
    {
      var heard := listeners.GetContextListeners(Some(typ), channel, true);
      targets := CollectInstances(heard, source, {});
      assert forall l :: l in heard <==> l in listeners.contextListeners && Hears(l, typ, channel);
    }

    /** `broadcast_context` once the channel is known. */
    method BroadcastOn(ctx: Context, source: Instance, channel: Option<ChannelId>) returns (targets: set<Instance>)
      requires manager.Valid()
      modifies manager
      ensures manager.Valid()
      ensures targets == Targets(old(manager.View()), listeners.contextListeners, ctx, source, channel)
      ensures manager.View() == if Named(channel)
                                then Broadcast(SetContext(old(manager.View()), channel.value, ctx), channel.value,
                                               ctx, source)
                                else old(manager.View())
    {
      if channel.Some? && channel.value != "" {
        manager.SetChannelContext(channel.value, ctx);
      }
      targets := HearingInstances(ctx.typ, source, channel);
      if channel.Some? && channel.value != "" {
        var members := manager.GetChannelMembers(channel.value);
        assert members == Members(old(manager.View()), channel.value);
        targets := CollectMembers(members, source, targets);
        manager.BroadcastToChannel(channel.value, ctx, source);
      }
    }

    /** Delivers to exactly the instances of the listeners that hear the
        context and the members of its channel, except the source; the order
        of the result is unspecified and nobody is listed twice. */
    method BroadcastContext(ctx: Context, source: Instance, channel: Option<ChannelId>)
      returns (r: Result<set<Instance>>)
      requires manager.Valid()
      modifies manager
      ensures manager.Valid()
      ensures r.Err? <==> ctx.typ == ""
      ensures r.Err? ==> manager.View() == old(manager.View())
      ensures var resolved := ResolvedChannel(old(manager.View()), source, channel);
              r.Ok? ==>
                && r.value == Targets(old(manager.View()), listeners.contextListeners, ctx, source, resolved)
                && manager.View()
                   == if Named(resolved)
                      then Broadcast(SetContext(old(manager.View()), resolved.value, ctx), resolved.value, ctx, source)
                      else old(manager.View())
    {
      if ctx.typ == "" {
        return Err("Context must have a 'type' field");
      }
      var resolved := channel;
      if resolved == None && source != "" {
        resolved := manager.GetCurrentChannel(source);
      }
      var targets := BroadcastOn(ctx, source, resolved);
      r := Ok(targets);
    }
  }

  method CollectInstances(heard: Table, source: Instance, start: set<Instance>) returns (targets: set<Instance>)
    ensures targets == start + ((set l | l in heard :: l.instance) - {source})
  {
    targets := start;
    for k := 0 to |heard|
      invariant targets == start + ((set l | l in heard[..k] :: l.instance) - {source})
    {
      assert heard[..k + 1] == heard[..k] + [heard[k]];
      if heard[k].instance != source {
        targets := targets + {heard[k].instance};
      }
    }
    assert heard[..|heard|] == heard;
  }

  method CollectMembers(members: seq<Instance>, source: Instance, start: set<Instance>) returns (targets: set<Instance>)
    ensures targets == start + ((set i | i in members) - {source})
  {
    targets := start;
    for k := 0 to |members|
      invariant targets == start + ((set i | i in members[..k]) - {source})
    {
      assert members[..k + 1] == members[..k] + [members[k]];
      if members[k] != source {
        targets := targets + {members[k]};
      }
    }
    assert members[..|members|] == members;
  }

  // ---------- Who gets a broadcast ----------

  /** A broadcast without a channel goes to the source's current one, if it has
      one that exists and whose id is not empty. It reaches exactly, but for the
      source, whoever has a listener of its type, global or on its channel or
      anywhere if it has none, and the members of its channel. */
  lemma TargetsExact(s: State, ls: Table, ctx: Context, source: Instance, channel: Option<ChannelId>, i: Instance)
    ensures var d := if channel.Some? then channel
                     else if source != "" && source in s.current && s.current[source] != ""
                             && s.current[source] in s.channels then Some(s.current[source]) else None;
            i in Targets(s, ls, ctx, source, ResolvedChannel(s, source, channel))
            <==> i != source
                 && ((exists l :: l in ls && l.instance == i && l.topic.OnContext?
                                  && l.topic.contextType in {None, Some(ctx.typ)}
                                  && (d == None || l.topic.contextChannel in {None, d}))
                     || (d.Some? && d.value != "" && d.value in s.channels && i in s.channels[d.value].members))
  {
    var d := ResolvedChannel(s, source, channel);
    forall l | l in ls
      ensures Hears(l, ctx.typ, d)
              <==> l.topic.OnContext? && l.topic.contextType in {None, Some(ctx.typ)}
                   && (d == None || l.topic.contextChannel in {None, d})
    {
    }
  }

  // ---------- Listeners bound to a channel ----------

  /** `i` has a listener of the type that is global or bound to this channel. */
  ghost predicate ListensOn(ls: Table, typ: string, channel: Option<ChannelId>, i: Instance) {
    exists l :: l in ls && l.instance == i && OfType(l, typ) && l.topic.contextChannel in {None, channel}
  }

  /** `i` should get a broadcast on this channel, or on none: it listens there
      or is a member. */
  ghost predicate Addressed(s: State, ls: Table, typ: string, channel: Option<ChannelId>, i: Instance) {
    ListensOn(ls, typ, channel, i) || (Named(channel) && i in Members(s, channel.value))
  }

  /** A broadcast reaches only instances that it addresses exactly if it has a
      channel, named or current, or every other instance with a listener of its
      type has a global one: without a channel, the filter by channel is off,
      and listeners bound to any channel hear it. */
  lemma BroadcastRespectsBindingsIff(s: State, ls: Table, ctx: Context, source: Instance, channel: Option<ChannelId>)
    ensures var resolved := ResolvedChannel(s, source, channel);
            (forall i :: i in Targets(s, ls, ctx, source, resolved) ==> Addressed(s, ls, ctx.typ, resolved, i))
            <==> || resolved.Some?
                 || forall l :: l in ls && OfType(l, ctx.typ) && l.instance != source
                                ==> ListensOn(ls, ctx.typ, None, l.instance)
  {
    var resolved := ResolvedChannel(s, source, channel);
    if resolved.Some? {
      forall l | l in ls && Hears(l, ctx.typ, resolved) ensures ListensOn(ls, ctx.typ, resolved, l.instance) {
      }
    } else if forall i :: i in Targets(s, ls, ctx, source, resolved) ==> Addressed(s, ls, ctx.typ, resolved, i) {
      forall l | l in ls && OfType(l, ctx.typ) && l.instance != source
        ensures ListensOn(ls, ctx.typ, None, l.instance)
      {
        assert l.instance in Targets(s, ls, ctx, source, None);
        assert Addressed(s, ls, ctx.typ, None, l.instance);
      }
    }
  }

  /** A failing input: a context sent without a channel reaches a listener that
      was bound to channel `c`. */
  lemma ChannellessBroadcastReachesBound(c: ChannelId, typ: string)
    ensures var ls := [Listener("k", "i", OnContext(Some(typ), Some(c)))];
            "i" in Targets(EMPTY, ls, Context(typ, ""), "j", ResolvedChannel(EMPTY, "j", None))
            && !ListensOn(ls, typ, None, "i")
  {
    var l := Listener("k", "i", OnContext(Some(typ), Some(c)));
    assert l in [l] && Hears(l, typ, None);
  }

  // ---------- Intents ----------

  datatype Resolution = Resolution(appId: string, instanceId: string, intent: string)

  /** `resolve_intent`: the app of the first listener for the intent. */
  function ResolveIntent(ls: Table, apps: seq<Apps.AppInstance>, intent: string): Option<Resolution> {
    var heard := IntentListenersFor(ls, intent);
    if heard == [] then None
    else
      var app := Apps.Lookup(apps, heard[0].instance);
      if app == None then None else Some(Resolution(app.value.appId, app.value.instanceId, intent))
  }

  function InstancesOf(heard: Table): seq<Instance> {
    if heard == [] then [] else [heard[0].instance] + InstancesOf(heard[1..])
  }

  predicate HasListener(ls: Table, intent: string, i: Instance) {
    exists l :: l in ls && l.topic == OnIntent(intent) && l.instance == i
  }

  /** The first of some app's instances with the resolved id and a listener. */
  function FirstReady(candidates: seq<Apps.AppInstance>, ls: Table, instanceId: string, intent: string)
    : (r: Option<Instance>)
    ensures r.Some? ==> exists a :: a in candidates && a.uuid == r.value && a.instanceId == instanceId
                                    && HasListener(ls, intent, a.uuid)
    ensures r == None ==> forall a :: a in candidates && a.instanceId == instanceId ==> !HasListener(ls, intent, a.uuid)
  {
    if candidates == [] then None
    else if candidates[0].instanceId == instanceId && HasListener(ls, intent, candidates[0].uuid)
    then Some(candidates[0].uuid)
    else FirstReady(candidates[1..], ls, instanceId, intent)
  }

  /** `deliver_intent_event_with_resolution`: the resolved instance alone if it
      is there and listens, or else every listener. */
  function DeliverIntent(ls: Table, apps: seq<Apps.AppInstance>, intent: string, resolution: Option<Resolution>)
    : seq<Instance>
  {
    var everyone := InstancesOf(IntentListenersFor(ls, intent));
    if resolution == None || resolution.value.instanceId == "" then everyone
    else
      var ready := FirstReady(Apps.OfApp(apps, resolution.value.appId), ls, resolution.value.instanceId, intent);
      if ready.Some? then [ready.value] else everyone
  }

  lemma {:induction false} InstancesExact(heard: Table)
    ensures |InstancesOf(heard)| == |heard|
    ensures forall k :: 0 <= k < |heard| ==> InstancesOf(heard)[k] == heard[k].instance
  {
    if heard != [] {
      InstancesExact(heard[1..]);
    }
  }

  /** An intent resolves exactly if somebody listens for it and the first who does
      is registered; to that instance's app and instance ids. */
  lemma ResolvesIff(ls: Table, apps: seq<Apps.AppInstance>, intent: string)
    ensures var r := ResolveIntent(ls, apps, intent);
            && (r.Some? <==> exists k :: && FirstListener(ls, intent, k)
                                         && exists a :: a in apps && a.uuid == ls[k].instance)
            && (r.Some? ==> exists k :: && FirstListener(ls, intent, k)
                                        && Apps.Lookup(apps, ls[k].instance).Some?
                                        && r.value.appId == Apps.Lookup(apps, ls[k].instance).value.appId
                                        && r.value.instanceId == Apps.Lookup(apps, ls[k].instance).value.instanceId
                                        && r.value.intent == intent)
  {
    FirstHeard(ls, intent);
    if k :| FirstListener(ls, intent, k) {
      assert forall a :: a in apps && a.uuid == ls[k].instance ==> Apps.Lookup(apps, ls[k].instance).Some?;
    }
  }

  /** The listener at `k` is the first of the table for the intent. */
  predicate FirstListener(ls: Table, intent: string, k: int) {
    0 <= k < |ls| && ls[k].topic == OnIntent(intent) && forall j :: 0 <= j < k ==> ls[j].topic != OnIntent(intent)
  }

  lemma {:induction false} FirstHeard(ls: Table, intent: string)
    ensures IntentListenersFor(ls, intent) == [] <==> forall k :: !FirstListener(ls, intent, k)
    ensures forall k :: FirstListener(ls, intent, k)
                        ==> IntentListenersFor(ls, intent) != [] && IntentListenersFor(ls, intent)[0] == ls[k]
  {
    if ls != [] {
      FirstHeard(ls[1..], intent);
      if ls[0].topic == OnIntent(intent) {
        assert FirstListener(ls, intent, 0);
      } else {
        forall k ensures FirstListener(ls, intent, k) <==> FirstListener(ls[1..], intent, k - 1) {
          if FirstListener(ls[1..], intent, k - 1) {
            forall j | 0 <= j < k ensures ls[j].topic != OnIntent(intent) {
              if j > 0 {
                assert ls[j] == ls[1..][j - 1];
              }
            }
          } else if FirstListener(ls, intent, k) {
            forall j | 0 <= j < k - 1 ensures ls[1..][j].topic != OnIntent(intent) {
              assert ls[1..][j] == ls[j + 1];
            }
          }
        }
        if IntentListenersFor(ls, intent) != [] {
          var k :| FirstListener(ls[1..], intent, k);
          assert FirstListener(ls, intent, k + 1);
        }
      }
    }
  }

  /** A delivery is to one instance alone exactly if the resolution names an
      instance id under which some instance of its app listens; otherwise it is
      to every listener's instance, listener by listener. */
  lemma DeliveryExact(ls: Table, apps: seq<Apps.AppInstance>, intent: string, resolution: Option<Resolution>)
    ensures var targets := DeliverIntent(ls, apps, intent, resolution);
            var heard := IntentListenersFor(ls, intent);
            if resolution.Some? && resolution.value.instanceId != ""
               && exists a :: a in apps && a.appId == resolution.value.appId
                              && a.instanceId == resolution.value.instanceId && HasListener(ls, intent, a.uuid)
            then && |targets| == 1 && HasListener(ls, intent, targets[0])
                 && exists a :: a in apps && a.appId == resolution.value.appId
                                && a.instanceId == resolution.value.instanceId && a.uuid == targets[0]
            else |targets| == |heard| && forall k :: 0 <= k < |heard| ==> targets[k] == heard[k].instance
  {
    InstancesExact(IntentListenersFor(ls, intent));
    if resolution.Some? {
      assert forall a :: a in Apps.OfApp(apps, resolution.value.appId)
                         <==> a in apps && a.appId == resolution.value.appId;
    }
  }

  /** A resolution with an instance id, delivered before anything changes,
      reaches exactly one instance: one that listens for the intent and is
      registered under the resolved app and instance id. */
  lemma ResolutionReachesOne(ls: Table, apps: seq<Apps.AppInstance>, intent: string)
    requires ResolveIntent(ls, apps, intent).Some? && ResolveIntent(ls, apps, intent).value.instanceId != ""
    ensures var r := ResolveIntent(ls, apps, intent).value;
            var targets := DeliverIntent(ls, apps, intent, Some(r));
            && |targets| == 1 && HasListener(ls, intent, targets[0])
            && exists a :: a in apps && a.uuid == targets[0] && a.appId == r.appId && a.instanceId == r.instanceId
  {
    var r := ResolveIntent(ls, apps, intent).value;
    var first := IntentListenersFor(ls, intent)[0];
    assert first in IntentListenersFor(ls, intent);
    var app := Apps.Lookup(apps, first.instance).value;
    assert app in Apps.OfApp(apps, r.appId) && HasListener(ls, intent, app.uuid);
  }

  /** The target is the very instance whose listener was selected exactly when
      no instance registered earlier has the same app and instance ids and
      listens too. */
  lemma ResolutionReachesSelectedIff(ls: Table, apps: seq<Apps.AppInstance>, intent: string)
    requires ResolveIntent(ls, apps, intent).Some? && ResolveIntent(ls, apps, intent).value.instanceId != ""
    ensures var r := ResolveIntent(ls, apps, intent).value;
            var selected := IntentListenersFor(ls, intent)[0].instance;
            DeliverIntent(ls, apps, intent, Some(r)) == [selected]
            <==> Earliest(Apps.OfApp(apps, r.appId), ls, r.instanceId, intent, selected)
  {
    var r := ResolveIntent(ls, apps, intent).value;
    ResolutionReachesOne(ls, apps, intent);
    var selected := IntentListenersFor(ls, intent)[0].instance;
    FirstReadyEarliest(Apps.OfApp(apps, r.appId), ls, r.instanceId, intent, selected);
    var first := IntentListenersFor(ls, intent)[0];
    assert first in IntentListenersFor(ls, intent);
    var app := Apps.Lookup(apps, first.instance).value;
    assert app in Apps.OfApp(apps, r.appId) && HasListener(ls, intent, app.uuid);
  }

  /** A failing input: two connections registered under the same ids, of which
      the second listens first. */
  lemma ResolutionReachesTwin(intent: string)
    ensures var apps := Apps.RunApps([Apps.ConnectedOp("a", "1", "u"), Apps.ConnectedOp("a", "1", "v")]).instances;
            var ls := [Listener("k", "v", OnIntent(intent)), Listener("l", "u", OnIntent(intent))];
            && IntentListenersFor(ls, intent)[0].instance == "v"
            && DeliverIntent(ls, apps, intent, ResolveIntent(ls, apps, intent)) == ["u"]
  {
    var (u, v) := (Apps.AppInstance("a", "1", "u", true), Apps.AppInstance("a", "1", "v", true));
    var first := Apps.ConnectedOp("a", "1", "u");
    var ops := [first, Apps.ConnectedOp("a", "1", "v")];
    assert ops[..1] == [first] && [first][..0] == [];
    assert Apps.RunApps([first]).instances == [u];
    assert Apps.RunApps(ops).instances == [u, v];
    var ls := [Listener("k", "v", OnIntent(intent)), Listener("l", "u", OnIntent(intent))];
    assert ls[1..] == [ls[1]] && ls[1..][1..] == [];
    assert IntentListenersFor(ls[1..], intent) == ls[1..];
    assert IntentListenersFor(ls, intent) == ls;
    assert ls[1] in ls && HasListener(ls, intent, "u");
    assert Apps.Lookup([u, v], "v") == Some(v);
    assert Apps.OfApp([u, v], "a") == [u, v];
  }

  /** `i` comes before any other candidate with that id and a listener. */
  ghost predicate Earliest(candidates: seq<Apps.AppInstance>, ls: Table, instanceId: string, intent: string,
                           i: Instance)
  {
    exists k :: 0 <= k < |candidates| && candidates[k].uuid == i && candidates[k].instanceId == instanceId
                && HasListener(ls, intent, i)
                && forall j :: 0 <= j < k && candidates[j].instanceId == instanceId
                               ==> !HasListener(ls, intent, candidates[j].uuid)
  }

  lemma {:induction false} FirstReadyEarliest(candidates: seq<Apps.AppInstance>, ls: Table, instanceId: string,
                                              intent: string, i: Instance)
    ensures FirstReady(candidates, ls, instanceId, intent) == Some(i)
            <==> Earliest(candidates, ls, instanceId, intent, i)
  {
    if candidates != [] {
      var head := candidates[0];
      if head.instanceId == instanceId && HasListener(ls, intent, head.uuid) {
        if Earliest(candidates, ls, instanceId, intent, i) {
          var k :| 0 <= k < |candidates| && candidates[k].uuid == i && candidates[k].instanceId == instanceId
                   && HasListener(ls, intent, i)
                   && forall j :: 0 <= j < k && candidates[j].instanceId == instanceId
                                  ==> !HasListener(ls, intent, candidates[j].uuid);
          assert k == 0;
        }
      } else {
        FirstReadyEarliest(candidates[1..], ls, instanceId, intent, i);
        EarliestShift(candidates, ls, instanceId, intent, i);
      }
    }
  }

  lemma EarliestShift(candidates: seq<Apps.AppInstance>, ls: Table, instanceId: string, intent: string, i: Instance)
    requires candidates != []
    requires !(candidates[0].instanceId == instanceId && HasListener(ls, intent, candidates[0].uuid))
    ensures Earliest(candidates, ls, instanceId, intent, i) <==> Earliest(candidates[1..], ls, instanceId, intent, i)
  {
  }
}
