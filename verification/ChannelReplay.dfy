/** The events a run emits, replayed from nothing, rebuild the channels, the
    current channel of every instance and every member list, apart from the
    one entry that a private channel's creation gives its owner silently. */
module ChannelReplay {
  import opened Basics
  import opened Channels
  import opened ChannelRuns

  /** What a subscriber can reconstruct from events alone. */
  datatype Mirror = Mirror(members: map<ChannelId, seq<Instance>>, current: CurrentMap)

  function Apply(m: Mirror, e: Event): Mirror {
    match e
    case Created(c) => m.(members := m.members[c := []])
    case Joined(c, i) =>
      Mirror(if c in m.members then m.members[c := m.members[c] + [i]] else m.members, m.current[i := c])
    case Left(c, i) =>
      Mirror(if c in m.members then m.members[c := WithoutFirst(m.members[c], i)] else m.members, m.current - {i})
    case Deleted(c) => Mirror(m.members - {c}, m.current - JoinedTo(m.current, c))
    case Destroyed(c) => Mirror(m.members - {c}, m.current - JoinedTo(m.current, c))
    case Broadcasted(_, _, _) => m
  }

  function Replay(events: seq<Event>): Mirror {
    if events == [] then Mirror(map[], map[])
    else Apply(Replay(events[..|events| - 1]), events[|events| - 1])
  }

  /** A member list without the entry its channel's creation gave the owner. */
  function JoinedEntries(channels: ChannelMap, owners: OwnerMap, c: ChannelId): seq<Instance>
    requires c in channels
  {
    if c in owners then WithoutFirst(channels[c].members, owners[c]) else channels[c].members
  }

  function AllEntries(channels: ChannelMap, owners: OwnerMap): map<ChannelId, seq<Instance>> {
    map c | c in channels :: JoinedEntries(channels, owners, c)
  }

  function Reflect(s: State): Mirror {
    Mirror(AllEntries(s.channels, s.owners), s.current)
  }

  lemma ReplayAppend(events: seq<Event>, e: Event)
    ensures Replay(events + [e]) == Apply(Replay(events), e)
  {
  }

  lemma {:induction false} WithoutFirstCommutes<T>(s: seq<T>, x: T, y: T)
    ensures WithoutFirst(WithoutFirst(s, x), y) == WithoutFirst(WithoutFirst(s, y), x)
  {
    if s != [] && x != y {
      WithoutFirstCommutes(s[1..], x, y);
      if s[0] != x {
        assert WithoutFirst(s, x)[1..] == WithoutFirst(s[1..], x);
      }
      if s[0] != y {
        assert WithoutFirst(s, y)[1..] == WithoutFirst(s[1..], y);
      }
    }
  }

  lemma EntriesAfterLeaving(channels: ChannelMap, owners: OwnerMap, c: ChannelId, i: Instance)
    requires c in channels
    ensures AllEntries(channels[c := channels[c].(members := WithoutFirst(channels[c].members, i))], owners)
            == AllEntries(channels, owners)[c := WithoutFirst(JoinedEntries(channels, owners, c), i)]
  {
    if c in owners {
      WithoutFirstCommutes(channels[c].members, i, owners[c]);
    }
  }

  lemma EntriesAfterEntering(channels: ChannelMap, owners: OwnerMap, c: ChannelId, i: Instance)
    requires c in channels && (c in owners ==> owners[c] in channels[c].members)
    ensures AllEntries(channels[c := channels[c].(members := channels[c].members + [i])], owners)
            == AllEntries(channels, owners)[c := JoinedEntries(channels, owners, c) + [i]]
  {
    if c in owners {
      WithoutFirstAppend(channels[c].members, owners[c], [i]);
    }
  }

  /** The state between the two halves of a join. */
  ghost function Switched(s: State, i: Instance): State {
    var t := LeaveForSwitch(s, i);
    t.(current := t.current - {i})
  }

  lemma JoinIsSwitchThenEnter(s: State, i: Instance, c: ChannelId)
    requires c in s.channels
    ensures c in Switched(s, i).channels && Join(s, i, c) == Enter(Switched(s, i), i, c)
  {
  }

  lemma SwitchIsReplayed(s: State, i: Instance)
    requires Inv(s) && Replay(s.events) == Reflect(s)
    ensures Replay(Switched(s, i).events) == Reflect(Switched(s, i))
  {
    if i in s.current {
      EntriesAfterLeaving(s.channels, s.owners, s.current[i], i);
      ReplayAppend(s.events, Left(s.current[i], i));
    } else {
      assert s.current - {i} == s.current;
    }
  }

  /** The owner entry is there to be taken out even between the two halves. */
  lemma OwnerIsListed(s: State, i: Instance, c: ChannelId)
    requires Inv(s) && c in s.owners && c in Switched(s, i).channels
    ensures s.owners[c] in Switched(s, i).channels[c].members
  {
    var u := Switched(s, i);
    if i in s.current {
      LeavingKeepsCounts(s.channels, s.current, s.owners, i);
    } else {
      assert u.current == s.current;
    }
    assert Count(u.channels[c].members, s.owners[c]) == Share(u.current, s.owners, c, s.owners[c]);
  }

  lemma EnterIsReplayed(s: State, i: Instance, c: ChannelId)
    requires c in s.channels && (c in s.owners ==> s.owners[c] in s.channels[c].members)
    requires Replay(s.events) == Reflect(s)
    ensures Replay(Enter(s, i, c).events) == Reflect(Enter(s, i, c))
  {
    EntriesAfterEntering(s.channels, s.owners, c, i);
    ReplayAppend(s.events, Joined(c, i));
  }

  lemma JoinIsReplayed(s: State, i: Instance, c: ChannelId)
    requires Inv(s) && Replay(s.events) == Reflect(s)
    ensures Replay(Join(s, i, c).events) == Reflect(Join(s, i, c))
  {
    if c in s.channels {
      SwitchIsReplayed(s, i);
      if c in s.owners {
        OwnerIsListed(s, i, c);
      }
      EnterIsReplayed(Switched(s, i), i, c);
      JoinIsSwitchThenEnter(s, i, c);
    }
  }

  lemma LeaveIsReplayed(s: State, i: Instance)
    requires Inv(s) && Replay(s.events) == Reflect(s)
    ensures Replay(Leave(s, i).events) == Reflect(Leave(s, i))
  {
    if i in s.current {
      var c := s.current[i];
      EntriesAfterLeaving(s.channels, s.owners, c, i);
      ReplayAppend(s.events, Left(c, i));
    }
  }

  lemma CreateIsReplayed(s: State, c: ChannelId, kind: string)
    requires Inv(s) && Replay(s.events) == Reflect(s)
    ensures Replay(Create(s, c, kind).events) == Reflect(Create(s, c, kind))
  {
  }

  lemma CreatePrivateIsReplayed(s: State, owner: Instance, c: ChannelId)
    requires Inv(s) && Replay(s.events) == Reflect(s)
    ensures Replay(CreatePrivate(s, owner, c).events) == Reflect(CreatePrivate(s, owner, c))
  {
  }

  lemma RemovalIsReplayed(s: State, c: ChannelId)
    requires Inv(s) && Replay(s.events) == Reflect(s)
    ensures Replay(Delete(s, c).events) == Reflect(Delete(s, c))
    ensures Replay(Destroy(s, c).events) == Reflect(Destroy(s, c))
  {
    if c in s.channels {
      ReplayAppend(s.events, Deleted(c));
      ReplayAppend(s.events, Destroyed(c));
      DestroyEqualsDelete(s, c);
      assert Reflect(Delete(s, c)) == Apply(Reflect(s), Deleted(c));
      assert Reflect(Destroy(s, c)) == Reflect(Delete(s, c));
    }
  }

  lemma CreationStepIsReplayed(s: State, op: Op)
    requires Inv(s) && Replay(s.events) == Reflect(s)
    requires op.CreateOp? || op.CreatePrivateOp? || op.DeleteOp? || op.DestroyOp?
    ensures Replay(Step(s, op).events) == Reflect(Step(s, op))
  {
    match op
    case CreateOp(c, kind) => CreateIsReplayed(s, c, kind);
    case CreatePrivateOp(owner, requested, generated) =>
      CreatePrivateIsReplayed(s, owner, AssignedId(requested, generated));
    case DeleteOp(c) => RemovalIsReplayed(s, c);
    case DestroyOp(c) => RemovalIsReplayed(s, c);
  }

  lemma BroadcastIsReplayed(s: State, c: ChannelId, ctx: Context, source: Instance)
    requires Replay(s.events) == Reflect(s)
    ensures Replay(Broadcast(s, c, ctx, source).events) == Reflect(Broadcast(s, c, ctx, source))
  {
  }

  /** The remaining operations emit nothing and move nobody. */
  lemma SilentStep(s: State, op: Op)
    requires op.CreateInviteOp? || op.ConsumeInviteOp? || op.SetContextOp? || op.ClearContextOp? || op.AddRemoteOp?
             || op.RemoveRemoteOp?
    ensures Step(s, op).events == s.events && Reflect(Step(s, op)) == Reflect(s)
  {
  }

  lemma StepIsReplayed(s: State, op: Op)
    requires Inv(s) && Replay(s.events) == Reflect(s)
    ensures Replay(Step(s, op).events) == Reflect(Step(s, op))
  {
    if op.JoinOp? {
      JoinIsReplayed(s, op.instance, op.channel);
    } else if op.LeaveOp? {
      LeaveIsReplayed(s, op.instance);
    } else if op.BroadcastOp? {
      BroadcastIsReplayed(s, op.channel, op.context, op.source);
    } else if op.CreateOp? || op.CreatePrivateOp? || op.DeleteOp? || op.DestroyOp? {
      CreationStepIsReplayed(s, op);
    } else {
      SilentStep(s, op);
    }
  }

  /** For every sequential run, replaying the emitted events rebuilds the
      channel ids, the current channels, and every member list up to the
      owner's creation entry. */
  lemma {:induction false} RunIsReplayed(ops: seq<Op>)
    ensures Replay(Run(ops).events) == Reflect(Run(ops))
    ensures Replay(Run(ops).events).members.Keys == Run(ops).channels.Keys
    ensures Replay(Run(ops).events).current == Run(ops).current
  {
    if ops != [] {
      RunIsReplayed(ops[..|ops| - 1]);
      RunKeepsInv(ops[..|ops| - 1]);
      StepIsReplayed(Run(ops[..|ops| - 1]), ops[|ops| - 1]);
    }
  }

  // ---------- Exactly which events ----------

  /** What an operation announces, read off the state before it: nothing, unless
      the channel is new, known or joined; a switch announces both halves. */
  function Announces(s: State, op: Op): seq<Event> {
    match op
    case CreateOp(c, _) => if c in s.channels then [] else [Created(c)]
    case CreatePrivateOp(_, requested, generated) =>
      var c := if requested.Some? && requested.value != "" then requested.value else generated;
      if c in s.channels then [] else [Created(c)]
    case DeleteOp(c) => if c in s.channels then [Deleted(c)] else []
    case DestroyOp(c) => if c in s.channels then [Destroyed(c)] else []
    case JoinOp(i, c) => if c in s.channels then Leaves(s, i) + [Joined(c, i)] else []
    case LeaveOp(i) => Leaves(s, i)
    case BroadcastOp(c, ctx, source) => if c in s.channels then [Broadcasted(c, source, ctx)] else []
    case _ => []
  }

  function Leaves(s: State, i: Instance): seq<Event> {
    if i in s.current && s.current[i] in s.channels then [Left(s.current[i], i)] else []
  }

  function Announced(ops: seq<Op>): seq<Event> {
    if ops == [] then []
    else Announced(ops[..|ops| - 1]) + Announces(Run(ops[..|ops| - 1]), ops[|ops| - 1])
  }

  lemma StepAnnounces(s: State, op: Op)
    ensures Step(s, op).events == s.events + Announces(s, op)
  {
    if op.JoinOp? && op.channel in s.channels {
      assert LeaveForSwitch(s, op.instance).events == s.events + Leaves(s, op.instance);
      assert s.events + Leaves(s, op.instance) + [Joined(op.channel, op.instance)]
          == s.events + (Leaves(s, op.instance) + [Joined(op.channel, op.instance)]);
    }
  }

  /** In every run the emitted events are these, in order, and no others. */
  lemma {:induction false} RunAnnounces(ops: seq<Op>)
    ensures Run(ops).events == Announced(ops)
  {
    if ops != [] {
      RunAnnounces(ops[..|ops| - 1]);
      StepAnnounces(Run(ops[..|ops| - 1]), ops[|ops| - 1]);
    }
  }
}
