/** Disconnecting an instance: the removals from every registry together. */
module Cleanup {
  import opened Basics
  import opened Channels
  import opened ChannelRuns
  import L = Listeners
  import P = PriorityIndex
  import Apps
  import Registries

  /** Everything the agent keeps per instance. */
  datatype System = System(
    apps: Apps.Registry,
    store: L.Store,
    channels: State,
    connections: set<Instance>,
    handlers: P.Registry,
    clients: set<Instance>)

  /** The connection manager drops a connection, and with it the instance's
      external handlers; without a connection it does nothing. */
  function RemoveConnection(s: System, u: Instance): System {
    if u in s.connections
    then s.(connections := s.connections - {u}, handlers := P.UnregisterByInstance(s.handlers, u)) else s
  }

  /** Takes the instance out of the core registries. */
  function Detach(s: System, u: Instance): System {
    s.(apps := Apps.Unregister(s.apps, u), store := L.RemoveInstance(s.store, u), channels := Leave(s.channels, u))
  }

  function RemoveClient(s: System, u: Instance): System {
    s.(clients := if u != "" then s.clients - {u} else s.clients)
  }

  function CleanUp(s: System, u: Instance): System {
    RemoveClient(RemoveConnection(Detach(s, u), u), u)
  }

  ghost predicate Sane(s: System) {
    Apps.Consistent(s.apps) && L.Kept(s.store) && Inv(s.channels) && P.IndexIsSort(s.handlers)
  }

  class Agent {
    const apps: Apps.AppRegistry
    const store: L.ListenerStore
    const manager: ChannelManager
    const handlers: Registries.ExternalHandlerRegistry
    var connections: set<Instance>
    var clients: set<Instance>

    constructor ()
      ensures manager.Valid() && fresh(apps) && fresh(store) && fresh(manager) && fresh(handlers)
      ensures View() == System(Apps.Registry([], map[]), L.EMPTY_STORE, EMPTY, {}, P.NO_HANDLERS, {})
    {
      apps := new Apps.AppRegistry();
      store := new L.ListenerStore();
      manager := new ChannelManager();
      handlers := new Registries.ExternalHandlerRegistry();
      connections, clients := {}, {};
    }

    ghost function View(): System
      reads this, apps, store, manager, handlers
    {
      System(apps.View(), store.View(), manager.View(), connections, handlers.View(), clients)
    }

    method DropConnection(u: Instance)
      modifies this`connections, handlers
      ensures View() == RemoveConnection(old(View()), u)
    {
      if u in connections {
        connections := connections - {u};
        handlers.UnregisterInstance(u);
      }
    }

    method DetachInstance(u: Instance)
      requires manager.Valid() && L.Kept(store.View())
      modifies apps, store, manager, manager.channels.Values
      ensures manager.Valid() && View() == Detach(old(View()), u)
    {
      apps.UnregisterInstance(u);
      store.RemoveListenersForInstance(u);
      manager.LeaveCurrentChannel(u);
    }

    method DropClient(u: Instance)
      modifies this`clients
      ensures View() == RemoveClient(old(View()), u)
    {
      if u != "" && u in clients {
        clients := clients - {u};
      }
    }

    /** `_cleanup_instance`. */
    method CleanUpInstance(u: Instance)
      requires manager.Valid() && L.Kept(store.View())
      modifies this, apps, store, manager, manager.channels.Values, handlers
      ensures manager.Valid() && View() == CleanUp(old(View()), u)
    {
      DetachInstance(u);
      DropConnection(u);
      DropClient(u);
    }
  }

  // ---------- What is gone ----------

  lemma CleanUpKeepsSane(s: System, u: Instance)
    requires Sane(s)
    ensures Sane(CleanUp(s, u))
  {
    Apps.StepKeepsConsistent(s.apps, Apps.UnregisterOp(u));
    L.RemoveInstanceIsolates(s.store, u);
    LeaveKeepsInv(s.channels, u);
    P.UnregisterByInstanceKeepsSort(s.handlers, u);
  }

  /** Leaving takes `u` out of the members of every channel but those it owns,
      where its one creation entry stays. */
  lemma MembershipAfterLeaving(s: State, u: Instance, c: ChannelId)
    requires Inv(s) && c in s.channels
    ensures var t := Leave(s, u);
            && u !in t.current && c in t.channels
            && Count(t.channels[c].members, u) == if c in s.owners && s.owners[c] == u then 1 else 0
  {
    var t := Leave(s, u);
    LeaveKeepsInv(s, u);
    assert Count(t.channels[c].members, u) == Share(t.current, t.owners, c, u);
  }

  /** No trace of a cleaned-up instance is left in the app registry, the
      listeners, the current channels or the connections, nor in the members of
      a channel it does not own. */
  lemma CleanUpRemoves(s: System, u: Instance)
    requires Sane(s)
    ensures var t := CleanUp(s, u);
            && Apps.Lookup(t.apps.instances, u) == None && u !in t.apps.events
            && (forall l :: L.Holds(t.store, l) ==> l.instance != u)
            && (u != "" ==> u !in t.store.index && u !in t.clients)
            && u !in t.channels.current
            && (forall c :: c in t.channels.channels && u in t.channels.channels[c].members ==> Owns(t.channels, u, c))
            && u !in t.connections
  {
    var t := CleanUp(s, u);
    L.RemoveInstanceIsolates(s.store, u);
    forall c | c in t.channels.channels && u in t.channels.channels[c].members
      ensures Owns(t.channels, u, c)
    {
      assert c in s.channels.channels;
      MembershipAfterLeaving(s.channels, u, c);
    }
  }

  /** It stays a recorded participant exactly of the channels that recorded it
      and are not its current one: switching channels discards no record. */
  lemma StaysParticipantIff(s: System, u: Instance, c: ChannelId)
    requires Sane(s)
    ensures u in Participants(CleanUp(s, u).channels, c)
            <==> u in Participants(s.channels, c) && !(u in s.channels.current && s.channels.current[u] == c)
  {
    if u in s.channels.current {
      assert s.channels.current[u] in s.channels.channels;
    }
  }

  /** So cleanup leaves no participation but in owned channels exactly if the
      instance was recorded only in those and in its current channel. */
  lemma ParticipationsRemovedIff(s: System, u: Instance)
    requires Sane(s)
    ensures (forall c :: u in Participants(CleanUp(s, u).channels, c) ==> Owns(s.channels, u, c))
            <==> forall c :: u in Participants(s.channels, c)
                             ==> Owns(s.channels, u, c) || (u in s.channels.current && s.channels.current[u] == c)
  {
    forall c
      ensures u in Participants(CleanUp(s, u).channels, c)
              <==> u in Participants(s.channels, c) && !(u in s.channels.current && s.channels.current[u] == c)
    {
      StaysParticipantIff(s, u, c);
    }
  }

  predicate Owns(s: State, u: Instance, c: ChannelId) {
    c in s.owners && s.owners[c] == u
  }

  /** Joining a private channel and then another one, and leaving that, leaves
      the record of the first. */
  lemma SwitchKeepsRecord(s: State, u: Instance, p: ChannelId, b: ChannelId)
    requires IsPrivate(s, p) && b in s.channels && p != b && u !in s.current
    ensures var t := Leave(Join(Join(s, u, p), u, b), u);
            u !in t.current && u in Participants(t, p) && t.owners == s.owners
  {
    var first := Join(s, u, p);
    assert u in Participants(first, p) && first.current[u] == p;
    var second := Join(first, u, b);
    assert u in Participants(second, p) && second.current[u] == b;
  }

  /** The runs that leave a record behind: a guest of a private channel switches
      to another channel before it disconnects. */
  lemma SwitchLeavesParticipant(ops: seq<Op>, u: Instance, p: ChannelId, b: ChannelId)
    requires IsPrivate(Run(ops), p) && b in Run(ops).channels && p != b && u !in Run(ops).current
    requires !Owns(Run(ops), u, p)
    ensures var t := Run(ops + [JoinOp(u, p)] + [JoinOp(u, b)] + [LeaveOp(u)]);
            u !in t.current && u in Participants(t, p) && !Owns(t, u, p)
  {
    RunThreeSteps(ops, JoinOp(u, p), JoinOp(u, b), LeaveOp(u));
    SwitchKeepsRecord(Run(ops), u, p, b);
  }

  /** Its external handlers are gone exactly when it still had a connection, or
      had no handler to begin with. */
  lemma HandlersRemovedIff(s: System, u: Instance)
    requires Sane(s)
    ensures (forall h :: h in CleanUp(s, u).handlers.handlers ==> h.instance != u)
            <==> u in s.connections || forall h :: h in s.handlers.handlers ==> h.instance != u
  {
    P.UnregisterByInstanceKeepsSort(s.handlers, u);
  }

  // ---------- What stays ----------

  /** What leaving does, field by field. */
  lemma LeaveShape(s: State, u: Instance)
    ensures var t := Leave(s, u);
            && t.current == s.current - {u}
            && t.owners == s.owners && t.invites == s.invites && t.contexts == s.contexts && t.remote == s.remote
            && t.channels == if u in s.current && s.current[u] in s.channels
                             then DropMember(s, s.current[u], u).channels else s.channels
  {
    if u !in s.current {
      assert s.current - {u} == s.current;
    }
  }

  /** All that the channel manager records of `v`, and all that belongs to no
      instance, is the same: channels and their kinds, `v`'s member entries,
      current channel and participations; owners, invites, contexts and remote
      listeners. */
  ghost predicate Spared(s: State, t: State, v: Instance) {
    && t.channels.Keys == s.channels.Keys
    && (forall c :: c in s.channels ==>
          && t.channels[c].kind == s.channels[c].kind
          && Count(t.channels[c].members, v) == Count(s.channels[c].members, v))
    && (v in t.current <==> v in s.current) && (v in s.current ==> t.current[v] == s.current[v])
    && (forall c :: v in Participants(t, c) <==> v in Participants(s, c))
    && t.owners == s.owners && t.invites == s.invites && t.contexts == s.contexts && t.remote == s.remote
  }

  lemma LeaveSparesOthers(s: State, u: Instance, v: Instance)
    requires v != u
    ensures Spared(s, Leave(s, u), v)
  {
    LeaveShape(s, u);
    if u in s.current && s.current[u] in s.channels {
      CountWithoutFirst(s.channels[s.current[u]].members, u, v);
    }
    ParticipantsAfterLeaving(s, u, v);
  }

  lemma ParticipantsAfterLeaving(s: State, u: Instance, v: Instance)
    requires v != u
    ensures forall c :: v in Participants(Leave(s, u), c) <==> v in Participants(s, c)
  {
  }

  /** The listeners and their index, of `v`. */
  ghost predicate ListenersSpared(a: L.Store, b: L.Store, v: Instance) {
    && (forall l: L.Listener :: l.instance == v ==> (L.Holds(b, l) <==> L.Holds(a, l)))
    && L.Indexed(b.index, v) == L.Indexed(a.index, v)
  }

  ghost predicate AppSpared(a: Apps.Registry, b: Apps.Registry, v: Instance) {
    && Apps.Lookup(b.instances, v) == Apps.Lookup(a.instances, v)
    && (v in b.events <==> v in a.events) && (v in a.events ==> b.events[v] == a.events[v])
  }

  lemma DetachSparesOthers(s: System, u: Instance, v: Instance)
    requires Sane(s) && v != u
    ensures ListenersSpared(s.store, Detach(s, u).store, v)
    ensures AppSpared(s.apps, Detach(s, u).apps, v)
    ensures Spared(s.channels, Detach(s, u).channels, v)
  {
    L.RemoveInstanceIsolates(s.store, u);
    LookupOthers(s.apps.instances, u, v);
    LeaveSparesOthers(s.channels, u, v);
  }

  /** Every other instance keeps its records: its registration and connection
      event, listeners, index entry, connection and client, its handlers in
      their order, and all that the channel manager holds of it. */
  lemma CleanUpSparesOthers(s: System, u: Instance, v: Instance)
    requires Sane(s) && v != u
    ensures var t := CleanUp(s, u);
            && AppSpared(s.apps, t.apps, v)
            && ListenersSpared(s.store, t.store, v)
            && Spared(s.channels, t.channels, v)
            && (v in t.connections <==> v in s.connections)
            && (v in t.clients <==> v in s.clients)
            && HandlersOf(t.handlers.handlers, v) == HandlersOf(s.handlers.handlers, v)
  {
    DetachSparesOthers(s, u, v);
    P.UnregisterByInstanceKeepsSort(s.handlers, u);
    HandlersOfOthers(s.handlers.handlers, u, v);
  }

  function HandlersOf(s: seq<P.Handler>, v: Instance): seq<P.Handler> {
    Filter((h: P.Handler) => h.instance == v, s)
  }

  lemma {:induction false} HandlersOfOthers(s: seq<P.Handler>, u: Instance, v: Instance)
    requires u != v
    ensures HandlersOf(P.WithoutInstance(s, u), v) == HandlersOf(s, v)
  {
    if s != [] {
      HandlersOfOthers(s[1..], u, v);
    }
  }

  lemma {:induction false} LookupOthers(s: seq<Apps.AppInstance>, u: Instance, v: Instance)
    requires u != v
    ensures Apps.Lookup(Apps.Without(s, u), v) == Apps.Lookup(s, v)
  {
    if s != [] {
      LookupOthers(s[1..], u, v);
    }
  }
}
