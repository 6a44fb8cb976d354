/** The running app instances, keyed by instance uuid in registration order,
    and the connection event of each. */
module Apps {
  import opened Basics

  datatype AppInstance = AppInstance(appId: string, instanceId: string, uuid: string, connected: bool)

  /** `events` says of each instance's connection event whether it is set. */
  datatype Registry = Registry(instances: seq<AppInstance>, events: map<string, bool>)

  function Lookup(s: seq<AppInstance>, uuid: string): (r: Option<AppInstance>)
    ensures r.Some? ==> r.value in s && r.value.uuid == uuid
    ensures r == None ==> forall a :: a in s ==> a.uuid != uuid
  {
    if s == [] then None else if s[0].uuid == uuid then Some(s[0]) else Lookup(s[1..], uuid)
  }

  /** Assignment to a dictionary key: an existing entry keeps its place. */
  function Put(s: seq<AppInstance>, a: AppInstance): seq<AppInstance> {
    if s == [] then [a] else if s[0].uuid == a.uuid then [a] + s[1..] else [s[0]] + Put(s[1..], a)
  }

  function Without(s: seq<AppInstance>, uuid: string): seq<AppInstance> {
    Filter((a: AppInstance) => a.uuid != uuid, s)
  }

  function OfApp(s: seq<AppInstance>, appId: string): seq<AppInstance> {
    Filter((a: AppInstance) => a.appId == appId, s)
  }

  function RegisterPending(r: Registry, appId: string, instanceId: string, uuid: string): Registry {
    Registry(Put(r.instances, AppInstance(appId, instanceId, uuid, false)),
             if uuid in r.events then r.events else r.events[uuid := false])
  }

  /** A known instance keeps its identity and becomes connected. */
  function RegisterConnected(r: Registry, appId: string, instanceId: string, uuid: string): Registry {
    var known := Lookup(r.instances, uuid);
    Registry(Put(r.instances, if known.Some? then known.value.(connected := true)
                              else AppInstance(appId, instanceId, uuid, true)),
             r.events[uuid := true])
  }

  function Unregister(r: Registry, uuid: string): Registry {
    Registry(Without(r.instances, uuid), r.events - {uuid})
  }

  datatype AppOp =
    | PendingOp(appId: string, instanceId: string, uuid: string)
    | ConnectedOp(appId: string, instanceId: string, uuid: string)
    | UnregisterOp(uuid: string)

  function AppStep(r: Registry, op: AppOp): Registry {
    match op
    case PendingOp(a, i, u) => RegisterPending(r, a, i, u)
    case ConnectedOp(a, i, u) => RegisterConnected(r, a, i, u)
    case UnregisterOp(u) => Unregister(r, u)
  }

  function RunApps(ops: seq<AppOp>): Registry {
    if ops == [] then Registry([], map[]) else AppStep(RunApps(ops[..|ops| - 1]), ops[|ops| - 1])
  }

  function CountUuid(s: seq<AppInstance>, uuid: string): nat {
    if s == [] then 0 else (if s[0].uuid == uuid then 1 else 0) + CountUuid(s[1..], uuid)
  }

  /** Each uuid names one instance, the instances and the events have the same
      uuids, and a connected instance's event is set. */
  ghost predicate Consistent(r: Registry) {
    && (forall u :: CountUuid(r.instances, u) == if u in r.events then 1 else 0)
    && (forall a :: a in r.instances && a.connected ==> a.uuid in r.events && r.events[a.uuid])
  }

  lemma {:induction false} CountUuidPositive(s: seq<AppInstance>, u: string)
    ensures CountUuid(s, u) > 0 <==> Lookup(s, u).Some?
    ensures forall a :: a in s ==> CountUuid(s, a.uuid) > 0
  {
    if s != [] {
      CountUuidPositive(s[1..], u);
    }
  }

  lemma {:induction false} CountAfterPut(s: seq<AppInstance>, a: AppInstance, u: string)
    ensures CountUuid(Put(s, a), u) == if u == a.uuid && CountUuid(s, u) == 0 then 1 else CountUuid(s, u)
    ensures forall b :: b in Put(s, a) ==> b == a || b in s
  {
    if s != [] && s[0].uuid != a.uuid {
      CountAfterPut(s[1..], a, u);
    }
  }

  lemma {:induction false} CountAfterWithout(s: seq<AppInstance>, w: string, u: string)
    ensures CountUuid(Without(s, w), u) == if u == w then 0 else CountUuid(s, u)
  {
    if s != [] {
      CountAfterWithout(s[1..], w, u);
    }
  }

  lemma PutKeepsConsistent(r: Registry, a: AppInstance, isSet: bool)
    requires Consistent(r) && (a.connected ==> isSet)
    requires a.uuid in r.events && r.events[a.uuid] ==> isSet
    ensures Consistent(Registry(Put(r.instances, a), r.events[a.uuid := isSet]))
  {
    forall u ensures CountUuid(Put(r.instances, a), u) == if u in r.events[a.uuid := isSet] then 1 else 0 {
      CountAfterPut(r.instances, a, u);
    }
    CountAfterPut(r.instances, a, a.uuid);
  }

  lemma StepKeepsConsistent(r: Registry, op: AppOp)
    requires Consistent(r)
    ensures Consistent(AppStep(r, op))
  {
    match op
    case PendingOp(a, i, u) =>
      if u in r.events {
        PutKeepsConsistent(r, AppInstance(a, i, u, false), r.events[u]);
        assert r.events[u := r.events[u]] == r.events;
      } else {
        PutKeepsConsistent(r, AppInstance(a, i, u, false), false);
      }
    case ConnectedOp(a, i, u) =>
      var known := Lookup(r.instances, u);
      PutKeepsConsistent(r, if known.Some? then known.value.(connected := true) else AppInstance(a, i, u, true), true);
    case UnregisterOp(u) =>
      forall w ensures CountUuid(Without(r.instances, u), w) == if w in r.events - {u} then 1 else 0 {
        CountAfterWithout(r.instances, u, w);
      }
  }

  /** In every run of the instance lifecycle the two tables stay in step. */
  lemma {:induction false} RunKeepsConsistent(ops: seq<AppOp>)
    ensures Consistent(RunApps(ops))
  {
    if ops != [] {
      RunKeepsConsistent(ops[..|ops| - 1]);
      StepKeepsConsistent(RunApps(ops[..|ops| - 1]), ops[|ops| - 1]);
    }
  }

  // ---------- What a run says of one instance ----------

  lemma {:induction false} LookupAfterPut(s: seq<AppInstance>, a: AppInstance, u: string)
    ensures Lookup(Put(s, a), u) == if u == a.uuid then Some(a) else Lookup(s, u)
  {
    if s != [] && s[0].uuid != a.uuid {
      LookupAfterPut(s[1..], a, u);
    }
  }

  lemma {:induction false} LookupAfterWithout(s: seq<AppInstance>, w: string, u: string)
    ensures Lookup(Without(s, w), u) == if u == w then None else Lookup(s, u)
  {
    if s != [] {
      LookupAfterWithout(s[1..], w, u);
    }
  }

  lemma {:induction false} RunAppsAppend(a: seq<AppOp>, b: seq<AppOp>, op: AppOp)
    ensures RunApps(a + (b + [op])) == AppStep(RunApps(a + b), op)
  {
    assert (a + (b + [op]))[..|a + b|] == a + b;
  }

  /** Some operation connects the instance. */
  predicate Connects(ops: seq<AppOp>, u: string) {
    exists k :: 0 <= k < |ops| && ops[k].ConnectedOp? && ops[k].uuid == u
  }

  /** From a registration under some ids, pending or the first of an unknown
      uuid, the record keeps those ids, whatever ids later connections bring,
      until the uuid is unregistered or registered as pending again; it is
      connected exactly if some operation from then on connected it. */
  lemma {:induction false} IdentityIsKept(before: seq<AppOp>, first: AppOp, more: seq<AppOp>)
    requires first.PendingOp? || (first.ConnectedOp? && Lookup(RunApps(before).instances, first.uuid) == None)
    requires forall k :: 0 <= k < |more| && !more[k].ConnectedOp? ==> more[k].uuid != first.uuid
    ensures Lookup(RunApps(before + ([first] + more)).instances, first.uuid)
            == Some(AppInstance(first.appId, first.instanceId, first.uuid, Connects([first] + more, first.uuid)))
  {
    var u := first.uuid;
    if more == [] {
      assert [first] + more == [] + [first] && before + [] == before;
      RunAppsAppend(before, [], first);
      LookupAfterPut(RunApps(before).instances,
                     AppInstance(first.appId, first.instanceId, u, first.ConnectedOp?), u);
      assert ([first] + more)[0] == first;
    } else {
      var front, op := more[..|more| - 1], more[|more| - 1];
      assert [first] + more == ([first] + front) + [op];
      IdentityIsKept(before, first, front);
      RunAppsAppend(before, [first] + front, op);
      var r := RunApps(before + ([first] + front));
      assert forall k :: 0 <= k < |[first] + front| ==> ([first] + more)[k] == ([first] + front)[k];
      assert ([first] + more)[|more|] == op;
      match op
      case PendingOp(a, i, w) => LookupAfterPut(r.instances, AppInstance(a, i, w, false), u);
      case ConnectedOp(a, i, w) =>
        var known := Lookup(r.instances, w);
        LookupAfterPut(r.instances,
                       if known.Some? then known.value.(connected := true) else AppInstance(a, i, w, true), u);
      case UnregisterOp(w) => LookupAfterWithout(r.instances, w, u);
    }
  }

  /** A uuid is known exactly if it was registered and not unregistered since. */
  predicate RegisteredIn(ops: seq<AppOp>, u: string) {
    exists k :: 0 <= k < |ops| && !ops[k].UnregisterOp? && ops[k].uuid == u && NotUnregisteredAfter(ops, k, u)
  }

  predicate NotUnregisteredAfter(ops: seq<AppOp>, k: int, u: string) {
    forall j :: k < j < |ops| ==> 0 <= j && ops[j] != UnregisterOp(u)
  }

  lemma RegisteredStep(before: seq<AppOp>, op: AppOp, u: string)
    ensures RegisteredIn(before + [op], u)
            <==> (!op.UnregisterOp? && op.uuid == u) || (RegisteredIn(before, u) && op != UnregisterOp(u))
  {
    var ops := before + [op];
    assert forall j :: 0 <= j < |before| ==> ops[j] == before[j];
    assert ops[|before|] == op;
    if !op.UnregisterOp? && op.uuid == u {
      assert NotUnregisteredAfter(ops, |before|, u);
    } else if RegisteredIn(ops, u) {
      var k :| 0 <= k < |ops| && !ops[k].UnregisterOp? && ops[k].uuid == u && NotUnregisteredAfter(ops, k, u);
      assert before[k] == ops[k] && NotUnregisteredAfter(before, k, u);
    }
    if RegisteredIn(before, u) && op != UnregisterOp(u) {
      var k :| 0 <= k < |before| && !before[k].UnregisterOp? && before[k].uuid == u
               && NotUnregisteredAfter(before, k, u);
      assert ops[k] == before[k] && NotUnregisteredAfter(ops, k, u);
    }
  }

  /** In every run an instance is known exactly if it was registered and not
      unregistered since. */
  lemma {:induction false} KnownIffRegistered(ops: seq<AppOp>, u: string)
    ensures Lookup(RunApps(ops).instances, u).Some? <==> RegisteredIn(ops, u)
  {
    if ops != [] {
      var before, op := ops[..|ops| - 1], ops[|ops| - 1];
      assert ops == before + [op];
      KnownIffRegistered(before, u);
      RegisteredStep(before, op, u);
      var r := RunApps(before);
      match op
      case PendingOp(a, i, w) => LookupAfterPut(r.instances, AppInstance(a, i, w, false), u);
      case ConnectedOp(a, i, w) =>
        var known := Lookup(r.instances, w);
        LookupAfterPut(r.instances,
                       if known.Some? then known.value.(connected := true) else AppInstance(a, i, w, true), u);
      case UnregisterOp(w) => LookupAfterWithout(r.instances, w, u);
    }
  }

  /** A uuid was connected and not unregistered since. */
  predicate ConnectedIn(ops: seq<AppOp>, u: string) {
    exists k :: 0 <= k < |ops| && ops[k].ConnectedOp? && ops[k].uuid == u && NotUnregisteredAfter(ops, k, u)
  }

  lemma ConnectedStep(before: seq<AppOp>, op: AppOp, u: string)
    ensures ConnectedIn(before + [op], u)
            <==> (op.ConnectedOp? && op.uuid == u) || (ConnectedIn(before, u) && op != UnregisterOp(u))
  {
    var ops := before + [op];
    assert forall j :: 0 <= j < |before| ==> ops[j] == before[j];
    assert ops[|before|] == op;
    if op.ConnectedOp? && op.uuid == u {
      assert NotUnregisteredAfter(ops, |before|, u);
    } else if ConnectedIn(ops, u) {
      var k :| 0 <= k < |ops| && ops[k].ConnectedOp? && ops[k].uuid == u && NotUnregisteredAfter(ops, k, u);
      assert before[k] == ops[k] && NotUnregisteredAfter(before, k, u);
    }
    if ConnectedIn(before, u) && op != UnregisterOp(u) {
      var k :| 0 <= k < |before| && before[k].ConnectedOp? && before[k].uuid == u && NotUnregisteredAfter(before, k, u);
      assert ops[k] == before[k] && NotUnregisteredAfter(ops, k, u);
    }
  }

  /** In every run a connection event is set exactly if its uuid was connected
      since it was last unregistered, even if it is pending again. */
  lemma {:induction false} EventIsSetIff(ops: seq<AppOp>, u: string)
    ensures u in RunApps(ops).events && RunApps(ops).events[u] <==> ConnectedIn(ops, u)
  {
    if ops != [] {
      var before, op := ops[..|ops| - 1], ops[|ops| - 1];
      assert ops == before + [op];
      EventIsSetIff(before, u);
      ConnectedStep(before, op, u);
    }
  }

  function Uuids(s: seq<AppInstance>): seq<string> {
    if s == [] then [] else [s[0].uuid] + Uuids(s[1..])
  }

  function OtherThan(u: string): string -> bool {
    (w: string) => w != u
  }

  lemma {:induction false} UuidsAfterPut(s: seq<AppInstance>, a: AppInstance)
    ensures Uuids(Put(s, a)) == if a.uuid in Uuids(s) then Uuids(s) else Uuids(s) + [a.uuid]
  {
    if s != [] && s[0].uuid != a.uuid {
      UuidsAfterPut(s[1..], a);
    }
  }

  lemma {:induction false} UuidsAfterWithout(s: seq<AppInstance>, u: string)
    ensures Uuids(Without(s, u)) == Filter(OtherThan(u), Uuids(s))
  {
    if s != [] {
      UuidsAfterWithout(s[1..], u);
    }
  }

  /** Instances stand in the order of their first registration: a registration
      keeps everyone's place and appends an unknown uuid, and unregistering
      takes one out. */
  lemma OrderIsKept(r: Registry, op: AppOp)
    ensures Uuids(AppStep(r, op).instances)
            == if op.UnregisterOp? then Filter(OtherThan(op.uuid), Uuids(r.instances))
               else if op.uuid in Uuids(r.instances) then Uuids(r.instances)
               else Uuids(r.instances) + [op.uuid]
  {
    match op
    case PendingOp(a, i, u) => UuidsAfterPut(r.instances, AppInstance(a, i, u, false));
    case ConnectedOp(a, i, u) =>
      var known := Lookup(r.instances, u);
      UuidsAfterPut(r.instances, if known.Some? then known.value.(connected := true) else AppInstance(a, i, u, true));
    case UnregisterOp(u) => UuidsAfterWithout(r.instances, u);
  }

  class AppRegistry {
    var instances: seq<AppInstance>  // the values of the instance dictionary
    var connectionEvents: map<string, bool>

    function View(): Registry
      reads this
    {
      Registry(instances, connectionEvents)
    }

    constructor ()
      ensures View() == Registry([], map[])
    {
      instances, connectionEvents := [], map[];
    }

    method RegisterPendingInstance(appId: string, instanceId: string, uuid: string) returns (a: AppInstance)
      modifies this
      ensures View() == RegisterPending(old(View()), appId, instanceId, uuid)
      ensures a == AppInstance(appId, instanceId, uuid, false)
    {
      a := AppInstance(appId, instanceId, uuid, false);
      instances := Put(instances, a);
      if uuid !in connectionEvents {
        connectionEvents := connectionEvents[uuid := false];
      }
    }

    method RegisterInstance(appId: string, instanceId: string, uuid: string) returns (a: AppInstance)
      modifies this
      ensures View() == RegisterConnected(old(View()), appId, instanceId, uuid)
      ensures a.uuid == uuid && a.connected
    {
      var known := Lookup(instances, uuid);
      if known.Some? {
        a := known.value.(connected := true);
      } else {
        a := AppInstance(appId, instanceId, uuid, true);
      }
      instances := Put(instances, a);
      connectionEvents := connectionEvents[uuid := true];
    }

    method UnregisterInstance(uuid: string)
      modifies this
      ensures View() == Unregister(old(View()), uuid)
    {
      instances := Without(instances, uuid);
      connectionEvents := connectionEvents - {uuid};
    }
  }
}
