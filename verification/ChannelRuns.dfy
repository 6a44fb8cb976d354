/** What every run of channel operations keeps: the member-count law, and that
    every record names a known channel. Destroying a channel is deleting it. */
module ChannelRuns {
  import opened Basics
  import opened Channels

  datatype Op =
    | CreateOp(channel: ChannelId, kind: string)
    | CreatePrivateOp(owner: Instance, requested: Option<ChannelId>, generated: ChannelId)
    | DeleteOp(channel: ChannelId)
    | DestroyOp(channel: ChannelId)
    | JoinOp(instance: Instance, channel: ChannelId)
    | LeaveOp(instance: Instance)
    | CreateInviteOp(channel: ChannelId, allowed: Option<Instance>, token: Token)
    | ConsumeInviteOp(channel: ChannelId, token: Token, instance: Instance)
    | SetContextOp(channel: ChannelId, context: Context)
    | ClearContextOp(channel: ChannelId)
    | BroadcastOp(channel: ChannelId, context: Context, source: Instance)
    | AddRemoteOp(channel: ChannelId, agent: string)
    | RemoveRemoteOp(channel: ChannelId, agent: string)

  function Step(s: State, op: Op): State {
    match op
    case CreateOp(c, kind) => Create(s, c, kind)
    case CreatePrivateOp(owner, requested, generated) => CreatePrivate(s, owner, AssignedId(requested, generated))
    case DeleteOp(c) => Delete(s, c)
    case DestroyOp(c) => Destroy(s, c)
    case JoinOp(i, c) => Join(s, i, c)
    case LeaveOp(i) => Leave(s, i)
    case CreateInviteOp(c, allowed, token) => CreateInvite(s, c, allowed, token)
    case ConsumeInviteOp(c, token, i) => ConsumeInvite(s, c, token, i)
    case SetContextOp(c, ctx) => SetContext(s, c, ctx)
    case ClearContextOp(c) => ClearContext(s, c)
    case BroadcastOp(c, ctx, source) => Broadcast(s, c, ctx, source)
    case AddRemoteOp(c, agent) => AddRemote(s, c, agent)
    case RemoveRemoteOp(c, agent) => RemoveRemote(s, c, agent)
  }

  /** The state after a sequential run from the empty manager. */
  function Run(ops: seq<Op>): State {
    if ops == [] then EMPTY else Step(Run(ops[..|ops| - 1]), ops[|ops| - 1])
  }

  lemma RunStep(ops: seq<Op>, op: Op)
    ensures Run(ops + [op]) == Step(Run(ops), op)
  {
    assert (ops + [op])[..|ops|] == ops;
  }

  lemma RunThreeSteps(ops: seq<Op>, a: Op, b: Op, c: Op)
    ensures Run(ops + [a] + [b] + [c]) == Step(Step(Step(Run(ops), a), b), c)
  {
    RunStep(ops, a);
    RunStep(ops + [a], b);
    RunStep(ops + [a] + [b], c);
  }

  // ---------- The member-count law ----------

  type ChannelMap = map<ChannelId, Channel>
  type CurrentMap = map<Instance, ChannelId>
  type OwnerMap = map<ChannelId, Instance>

  /** How often `i` must be listed in `c`: once for having joined it, once
      more for owning it. */
  function Share(current: CurrentMap, owners: OwnerMap, c: ChannelId, i: Instance): nat {
    (if i in current && current[i] == c then 1 else 0) + (if c in owners && owners[c] == i then 1 else 0)
  }

  ghost predicate CountLaw(channels: ChannelMap, current: CurrentMap, owners: OwnerMap) {
    forall c, i :: c in channels ==> Count(channels[c].members, i) == Share(current, owners, c, i)
  }

  ghost predicate AllPrivate(channels: ChannelMap, ids: set<ChannelId>) {
    forall c :: c in ids ==> c in channels && channels[c].kind == "private"
  }

  /** Nothing but remote listeners and contexts may name an unknown channel;
      only private channels have owners, participants and invites. */
  ghost predicate Closed(s: State) {
    && (forall i :: i in s.current ==> s.current[i] in s.channels)
    && AllPrivate(s.channels, s.owners.Keys)
    && AllPrivate(s.channels, s.participants.Keys)
    && AllPrivate(s.channels, s.invites.Keys)
    && (forall c :: c in s.invites ==> s.invites[c] != map[])
  }

  ghost predicate Inv(s: State) {
    CountLaw(s.channels, s.current, s.owners) && Closed(s)
  }

  lemma CreateKeepsInv(s: State, c: ChannelId, kind: string)
    requires Inv(s)
    ensures Inv(Create(s, c, kind))
  {
  }

  lemma CreatePrivateKeepsInv(s: State, owner: Instance, c: ChannelId)
    requires Inv(s)
    ensures Inv(CreatePrivate(s, owner, c))
  {
  }

  /** Removing one entry of `i` from the channel it has joined, and its current
      channel with it, keeps the counts. */
  lemma LeavingKeepsCounts(channels: ChannelMap, current: CurrentMap, owners: OwnerMap, i: Instance)
    requires CountLaw(channels, current, owners) && i in current && current[i] in channels
    ensures var ch := channels[current[i]];
            CountLaw(channels[current[i] := ch.(members := WithoutFirst(ch.members, i))], current - {i}, owners)
  {
    var ch := channels[current[i]];
    assert Count(ch.members, i) == Share(current, owners, current[i], i);
    forall j
      ensures Count(WithoutFirst(ch.members, i), j) == Share(current - {i}, owners, current[i], j)
    {
      CountWithoutFirst(ch.members, i, j);
      assert Count(ch.members, j) == Share(current, owners, current[i], j);
    }
  }

  lemma EnteringKeepsCounts(channels: ChannelMap, current: CurrentMap, owners: OwnerMap, i: Instance, c: ChannelId)
    requires CountLaw(channels, current, owners) && i !in current && c in channels
    ensures var ch := channels[c];
            CountLaw(channels[c := ch.(members := ch.members + [i])], current[i := c], owners)
  {
    forall j
      ensures Count(channels[c].members + [i], j) == Share(current[i := c], owners, c, j)
    {
      CountAppend(channels[c].members, [i], j);
      assert Count(channels[c].members, j) == Share(current, owners, c, j);
    }
  }

  lemma JoinKeepsCounts(s: State, i: Instance, c: ChannelId)
    requires Inv(s) && c in s.channels
    ensures var t := Join(s, i, c); CountLaw(t.channels, t.current, t.owners)
  {
    var t := LeaveForSwitch(s, i);
    if i in s.current {
      LeavingKeepsCounts(s.channels, s.current, s.owners, i);
    } else {
      assert s.current - {i} == s.current;
    }
    EnteringKeepsCounts(t.channels, s.current - {i}, s.owners, i, c);
    assert (s.current - {i})[i := c] == s.current[i := c];
  }

  lemma LeaveForSwitchKeepsClosed(s: State, i: Instance)
    requires Closed(s)
    ensures Closed(LeaveForSwitch(s, i))
  {
  }

  lemma EnterKeepsClosed(s: State, i: Instance, c: ChannelId)
    requires Closed(s) && c in s.channels
    ensures Closed(Enter(s, i, c))
  {
  }

  lemma LeaveKeepsInv(s: State, i: Instance)
    requires Inv(s)
    ensures Inv(Leave(s, i))
  {
    if i in s.current {
      LeavingKeepsCounts(s.channels, s.current, s.owners, i);
    }
  }

  lemma DeleteKeepsInv(s: State, c: ChannelId)
    requires Inv(s)
    ensures Inv(Delete(s, c))
  {
  }

  lemma CreateInviteKeepsClosed(s: State, c: ChannelId, allowed: Option<Instance>, token: Token)
    requires Closed(s)
    ensures Closed(CreateInvite(s, c, allowed, token))
  {
    assert token in Invites(s, c)[token := allowed];
  }

  lemma ConsumeInviteKeepsClosed(s: State, c: ChannelId, token: Token, i: Instance)
    requires Closed(s)
    ensures Closed(ConsumeInvite(s, c, token, i))
  {
  }

  /** The walk over the member list reaches everyone whose current channel is
      `c` exactly when destroying and deleting agree. */
  lemma DestroyEqualsDeleteIff(s: State, c: ChannelId)
    requires c in s.channels
    ensures Destroy(s, c).(events := []) == Delete(s, c).(events := [])
            <==> forall i :: i in s.current && s.current[i] == c ==> i in s.channels[c].members
  {
    var walked := WalkedFrom(s.current, c, s.channels[c].members);
    var scanned := JoinedTo(s.current, c);
    assert (s.current - walked).Keys == s.current.Keys - walked;
    assert (s.current - scanned).Keys == s.current.Keys - scanned;
    if Destroy(s, c).(events := []) == Delete(s, c).(events := []) {
      assert s.current - walked == s.current - scanned;
      forall i | i in s.current && s.current[i] == c ensures i in s.channels[c].members {
        assert i !in (s.current - scanned).Keys;
      }
    } else {
      assert walked != scanned;
    }
  }

  /** The count law makes the member list cover everyone who joined. */
  lemma DestroyEqualsDelete(s: State, c: ChannelId)
    requires Inv(s)
    ensures Destroy(s, c).(events := []) == Delete(s, c).(events := [])
    ensures forall i :: i in Destroy(s, c).current ==> c in s.channels ==> Destroy(s, c).current[i] != c
  {
    if c in s.channels {
      forall i | i in s.current && s.current[i] == c ensures i in s.channels[c].members {
        assert Share(s.current, s.owners, c, i) >= 1;
      }
      DestroyEqualsDeleteIff(s, c);
      assert Destroy(s, c).current == Delete(s, c).current;
    }
  }

  lemma DestroyKeepsInv(s: State, c: ChannelId)
    requires Inv(s)
    ensures Inv(Destroy(s, c))
  {
    DeleteKeepsInv(s, c);
    DestroyEqualsDelete(s, c);
    assert Inv(Destroy(s, c).(events := []));
  }

  lemma JoinKeepsInv(s: State, i: Instance, c: ChannelId)
    requires Inv(s)
    ensures Inv(Join(s, i, c))
  {
    if c in s.channels {
      JoinKeepsCounts(s, i, c);
      LeaveForSwitchKeepsClosed(s, i);
      EnterKeepsClosed(LeaveForSwitch(s, i), i, c);
    }
  }

  lemma CreationStepKeepsInv(s: State, op: Op)
    requires Inv(s) && (op.CreateOp? || op.CreatePrivateOp? || op.DeleteOp? || op.DestroyOp?)
    ensures Inv(Step(s, op))
  {
    match op
    case CreateOp(c, kind) => CreateKeepsInv(s, c, kind);
    case CreatePrivateOp(owner, requested, generated) =>
      CreatePrivateKeepsInv(s, owner, AssignedId(requested, generated));
    case DeleteOp(c) => DeleteKeepsInv(s, c);
    case DestroyOp(c) => DestroyKeepsInv(s, c);
  }

  /** Contexts, broadcasts and remote listeners are outside the invariant. */
  lemma InvIgnoresTheRest(s: State, t: State)
    requires Inv(s) && t == s.(remote := t.remote, contexts := t.contexts, events := t.events)
    ensures Inv(t)
  {
  }

  lemma OtherStepKeepsInv(s: State, op: Op)
    requires Inv(s)
    requires op.SetContextOp? || op.ClearContextOp? || op.BroadcastOp? || op.AddRemoteOp? || op.RemoveRemoteOp?
    ensures Inv(Step(s, op))
  {
    OtherStepShape(s, op);
    InvIgnoresTheRest(s, Step(s, op));
  }

  lemma OtherStepShape(s: State, op: Op)
    requires op.SetContextOp? || op.ClearContextOp? || op.BroadcastOp? || op.AddRemoteOp? || op.RemoveRemoteOp?
    ensures var t := Step(s, op); t == s.(remote := t.remote, contexts := t.contexts, events := t.events)
  {
    if op.AddRemoteOp? || op.RemoveRemoteOp? {
      RemoteShape(s, op);
    } else if op.BroadcastOp? {
      BroadcastShape(s, op.channel, op.context, op.source);
    } else {
      ContextShape(s, op);
    }
  }

  lemma RemoteShape(s: State, op: Op)
    requires op.AddRemoteOp? || op.RemoveRemoteOp?
    ensures var t := Step(s, op); t == s.(remote := t.remote)
  {
  }

  lemma ContextShape(s: State, op: Op)
    requires op.SetContextOp? || op.ClearContextOp?
    ensures var t := Step(s, op); t == s.(contexts := t.contexts)
  {
  }

  lemma BroadcastShape(s: State, c: ChannelId, ctx: Context, source: Instance)
    ensures var t := Broadcast(s, c, ctx, source); t == s.(contexts := t.contexts, events := t.events)
  {
  }

  lemma StepKeepsInv(s: State, op: Op)
    requires Inv(s)
    ensures Inv(Step(s, op))
  {
    if op.JoinOp? {
      JoinKeepsInv(s, op.instance, op.channel);
    } else if op.LeaveOp? {
      LeaveKeepsInv(s, op.instance);
    } else if op.CreateInviteOp? {
      CreateInviteKeepsClosed(s, op.channel, op.allowed, op.token);
    } else if op.ConsumeInviteOp? {
      ConsumeInviteKeepsClosed(s, op.channel, op.token, op.instance);
    } else if op.CreateOp? || op.CreatePrivateOp? || op.DeleteOp? || op.DestroyOp? {
      CreationStepKeepsInv(s, op);
    } else {
      OtherStepKeepsInv(s, op);
    }
  }

  /** In every run: how often an instance is listed in a channel is exactly
      whether it has joined it plus whether it owns it. */
  lemma {:induction false} RunKeepsInv(ops: seq<Op>)
    ensures Inv(Run(ops))
  {
    if ops != [] {
      RunKeepsInv(ops[..|ops| - 1]);
      StepKeepsInv(Run(ops[..|ops| - 1]), ops[|ops| - 1]);
    }
  }
}
