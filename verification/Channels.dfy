/** The channel manager: channels with member lists, the current channel of
    each instance, private-channel owners, participants and invites, cached
    contexts and the events that the operations emit. */
module Channels {
  import opened Basics

  type ChannelId = string
  type Instance = string
  type Token = string

  /** A context is a type plus everything else, compared by value. A missing
      `type` field is the empty string: the code treats both alike. */
  datatype Context = Context(typ: string, body: string)

  /** The key under which a channel's most recent context is cached. */
  const LAST_CONTEXT_KEY: string := "__last__"

  datatype Event =
    | Created(channel: ChannelId)
    | Joined(channel: ChannelId, instance: Instance)
    | Left(channel: ChannelId, instance: Instance)
    | Deleted(channel: ChannelId)
    | Destroyed(channel: ChannelId)
    | Broadcasted(channel: ChannelId, source: Instance, context: Context)

  datatype Channel = Channel(kind: string, members: seq<Instance>)

  datatype State = State(
    channels: map<ChannelId, Channel>,
    current: map<Instance, ChannelId>,
    owners: map<ChannelId, Instance>,
    participants: map<ChannelId, set<Instance>>,
    invites: map<ChannelId, map<Token, Option<Instance>>>,
    remote: map<ChannelId, set<string>>,
    contexts: map<ChannelId, map<string, Context>>,
    events: seq<Event>)

  const EMPTY: State := State(map[], map[], map[], map[], map[], map[], map[], [])

  // ---------- What each operation does to the state ----------

  function Emit(s: State, e: Event): State {
    s.(events := s.events + [e])
  }

  function Create(s: State, c: ChannelId, kind: string): State {
    if c in s.channels then s
    else Emit(s.(channels := s.channels[c := Channel(kind, [])]), Created(c))
  }

  /** An absent or empty requested id is replaced by the generated one. */
  function AssignedId(requested: Option<ChannelId>, generated: ChannelId): ChannelId {
    if requested.Some? && requested.value != "" then requested.value else generated
  }

  function CreatePrivate(s: State, owner: Instance, c: ChannelId): State {
    if c in s.channels then s
    else
      var t := Create(s, c, "private");
      t.(channels := t.channels[c := Channel("private", [owner])],
      owners := t.owners[c := owner],
      participants := t.participants[c := {owner}],
      invites := t.invites - {c})
  }

  /** Removes one entry of `i` from the member list of an existing channel. */
  function DropMember(s: State, c: ChannelId, i: Instance): State
    requires c in s.channels
  {
    var ch := s.channels[c];
    s.(channels := s.channels[c := ch.(members := WithoutFirst(ch.members, i))])
  }

  function LeaveForSwitch(s: State, i: Instance): State {
    if i in s.current && s.current[i] in s.channels
    then Emit(DropMember(s, s.current[i], i), Left(s.current[i], i))
    else s
  }

  function Participants(s: State, c: ChannelId): set<Instance> {
    if c in s.participants then s.participants[c] else {}
  }

  function Enter(s: State, i: Instance, c: ChannelId): State
    requires c in s.channels
  {
    var ch := s.channels[c];
    Emit(s.(
      channels := s.channels[c := ch.(members := ch.members + [i])],
      current := s.current[i := c],
      participants := if ch.kind == "private" then s.participants[c := Participants(s, c) + {i}] else s.participants),
    Joined(c, i))
  }

  function Join(s: State, i: Instance, c: ChannelId): State {
    if c !in s.channels then s else Enter(LeaveForSwitch(s, i), i, c)
  }

  function Leave(s: State, i: Instance): State {
    if i !in s.current then s
    else
      var c := s.current[i];
      if c !in s.channels then s.(current := s.current - {i})
      else
        var t := DropMember(s, c, i);
        Emit(t.(
          current := t.current - {i},
          participants :=
            if s.channels[c].kind == "private" && c in t.participants
            then t.participants[c := t.participants[c] - {i}] else t.participants),
        Left(c, i))
  }

  /** Everything removed with a channel except the instances that point at it. */
  function DropChannel(s: State, c: ChannelId): State {
    s.(channels := s.channels - {c},
    owners := s.owners - {c},
    participants := s.participants - {c},
    invites := s.invites - {c},
    remote := s.remote - {c},
    contexts := s.contexts - {c})
  }

  /** The instances whose current channel is `c`. */
  function JoinedTo(current: map<Instance, ChannelId>, c: ChannelId): set<Instance> {
    set i | i in current && current[i] == c
  }

  /** `delete_channel` scans every instance. */
  function Delete(s: State, c: ChannelId): State {
    if c !in s.channels then s
    else Emit(DropChannel(s, c).(current := s.current - JoinedTo(s.current, c)), Deleted(c))
  }

  /** The instances of a member list whose current channel is `c`. */
  function WalkedFrom(current: map<Instance, ChannelId>, c: ChannelId, members: seq<Instance>): set<Instance> {
    set i | i in members && i in current && current[i] == c
  }

  /** `destroy_private_channel` walks only the member list. */
  function Destroy(s: State, c: ChannelId): State {
    if c !in s.channels then s
    else
      Emit(DropChannel(s, c).(current := s.current - WalkedFrom(s.current, c, s.channels[c].members)), Destroyed(c))
  }

  function Invites(s: State, c: ChannelId): map<Token, Option<Instance>> {
    if c in s.invites then s.invites[c] else map[]
  }

  predicate IsPrivate(s: State, c: ChannelId) {
    c in s.channels && s.channels[c].kind == "private"
  }

  function CreateInvite(s: State, c: ChannelId, allowed: Option<Instance>, token: Token): State {
    if !IsPrivate(s, c) then s
    else s.(invites := s.invites[c := Invites(s, c)[token := allowed]])
  }

  /** Whether `i` may consume `token` on `c`. */
  predicate InviteAccepts(s: State, c: ChannelId, token: Token, i: Instance) {
    token in Invites(s, c) && (Invites(s, c)[token].Some? ==> Invites(s, c)[token].value == i)
  }

  function ConsumeInvite(s: State, c: ChannelId, token: Token, i: Instance): State {
    if !InviteAccepts(s, c, token, i) then s
    else
      var rest := Invites(s, c) - {token};
      s.(invites := if rest == map[] then s.invites - {c} else s.invites[c := rest])
  }

  function Contexts(s: State, c: ChannelId): map<string, Context> {
    if c in s.contexts then s.contexts[c] else map[]
  }

  /** Stores a context under its type and under the last-context key; a
      context without a type is ignored. */
  function SetContext(s: State, c: ChannelId, ctx: Context): State {
    if ctx.typ == "" then s
    else s.(contexts := s.contexts[c := Contexts(s, c)[ctx.typ := ctx][LAST_CONTEXT_KEY := ctx]])
  }

  function ClearContext(s: State, c: ChannelId): State {
    s.(contexts := s.contexts - {c})
  }

  /** `get_channel_context`: the cached context of one type, or the last one. */
  function GetContext(s: State, c: ChannelId, typ: Option<string>): Option<Context> {
    var stored := Contexts(s, c);
    var key := if typ.Some? then typ.value else LAST_CONTEXT_KEY;
    if key in stored then Some(stored[key]) else None
  }

  function Broadcast(s: State, c: ChannelId, ctx: Context, source: Instance): State {
    if c !in s.channels then s
    else Emit(SetContext(s, c, ctx), Broadcasted(c, source, ctx))
  }

  function AddRemote(s: State, c: ChannelId, agent: string): State {
    if c == "" || agent == "" then s
    else s.(remote := s.remote[c := (if c in s.remote then s.remote[c] else {}) + {agent}])
  }

  function RemoveRemote(s: State, c: ChannelId, agent: string): State {
    if c == "" || agent == "" || c !in s.remote || s.remote[c] == {} then s
    else
      var rest := s.remote[c] - {agent};
      s.(remote := if rest == {} then s.remote - {c} else s.remote[c := rest])
  }

  /** `get_current_channel`: an empty channel id counts as no channel. */
  function CurrentChannel(s: State, i: Instance): Option<ChannelId> {
    if i in s.current && s.current[i] != "" && s.current[i] in s.channels then Some(s.current[i]) else None
  }

  function Members(s: State, c: ChannelId): seq<Instance> {
    if c in s.channels then s.channels[c].members else []
  }

  // ---------- The manager object ----------

  class ChannelInstance {
    const id: ChannelId
    const kind: string
    var members: seq<Instance>

    constructor (id: ChannelId, kind: string)
      ensures this.id == id && this.kind == kind && members == []
    {
      this.id, this.kind, members := id, kind, [];
    }
  }

  class ChannelManager {
    var channels: map<ChannelId, ChannelInstance>
    var instanceChannels: map<Instance, ChannelId>
    var privateOwners: map<ChannelId, Instance>
    var privateParticipants: map<ChannelId, set<Instance>>
    var privateInvites: map<ChannelId, map<Token, Option<Instance>>>
    var remoteListeners: map<ChannelId, set<string>>
    var channelContexts: map<ChannelId, map<string, Context>>
    ghost var events: seq<Event>
    ghost var contents: map<ChannelId, Channel>  // the values of the channel objects

    /** Each channel object is stored under its own id, so no two ids share
        one object, and `contents` holds what the objects hold. */
    ghost predicate Valid()
      reads this, channels.Values
    {
      && contents.Keys == channels.Keys
      && forall c :: c in channels ==>
        channels[c].id == c && contents[c] == Channel(channels[c].kind, channels[c].members)
    }

    ghost function View(): State
      reads this
    {
      State(contents, instanceChannels, privateOwners, privateParticipants, privateInvites, remoteListeners,
            channelContexts, events)
    }

    constructor ()
      ensures Valid() && View() == EMPTY && channels == map[]
    {
      channels, instanceChannels, privateOwners := map[], map[], map[];
      privateParticipants, privateInvites, remoteListeners := map[], map[], map[];
      channelContexts, events, contents := map[], [], map[];
    }

    method CreateChannel(c: ChannelId, kind: string) returns (channel: ChannelInstance)
      requires Valid()
      modifies this
      ensures Valid() && View() == Create(old(View()), c, kind)
      ensures c in channels && channels[c] == channel
      ensures forall d :: d in old(channels) ==> d in channels && channels[d] == old(channels[d])
      ensures c !in old(channels) ==> fresh(channel) && channels == old(channels)[c := channel]
      ensures c in old(channels) ==> channels == old(channels)
    {
      if c in channels {
        return channels[c];
      }
      channel := new ChannelInstance(c, kind);
      channels, contents := channels[c := channel], contents[c := Channel(kind, [])];
      events := events + [Created(c)];
    }

    method CreatePrivateChannel(owner: Instance, requested: Option<ChannelId>, generated: ChannelId)
      returns (r: Result<ChannelInstance>)
      requires Valid()
      modifies this
      ensures Valid() && View() == CreatePrivate(old(View()), owner, AssignedId(requested, generated))
      ensures r.Err? <==> AssignedId(requested, generated) in old(channels)
      ensures r.Ok? ==> fresh(r.value) && r.value.id == AssignedId(requested, generated)
    {
      var c := AssignedId(requested, generated);
      if c in channels {
        return Err("channel already exists");
      }
      var channel := CreateChannel(c, "private");
      SetMembers(c, channel.members + [owner]);
      assert channel.members == [owner];
      SetOwner(c, owner);
      r := Ok(channel);
    }

    /** The owner's record, and a clean slate of invites. */
    method SetOwner(c: ChannelId, owner: Instance)
      requires Valid()
      modifies this`privateOwners, this`privateParticipants, this`privateInvites
      ensures Valid()
      ensures View() == old(View()).(owners := old(privateOwners)[c := owner],
                                     participants := old(privateParticipants)[c := {owner}],
                                     invites := old(privateInvites) - {c})
    {
      privateOwners := privateOwners[c := owner];
      privateParticipants := privateParticipants[c := {owner}];
      privateInvites := privateInvites - {c};
    }

    /** Replaces the member list of one channel object in place. */
    method SetMembers(c: ChannelId, members: seq<Instance>)
      requires Valid() && c in channels
      modifies this`contents, channels[c]
      ensures Valid()
      ensures contents == old(contents)[c := old(contents)[c].(members := members)]
    {
      channels[c].members := members;
      contents := contents[c := contents[c].(members := members)];
    }

    /** Removes the first entry of `i`, if any, from a channel object in place. */
    method RemoveMember(c: ChannelId, i: Instance)
      requires Valid() && c in channels
      modifies this`contents, channels[c]
      ensures Valid() && View() == DropMember(old(View()), c, i)
    {
      WithoutFirstAbsent(channels[c].members, i);
      if i in channels[c].members {
        SetMembers(c, WithoutFirst(channels[c].members, i));
      }
    }

    /** The part of `join_channel` that leaves the current channel. */
    method LeavePrevious(i: Instance)
      requires Valid()
      modifies this`contents, this`events, channels.Values
      ensures Valid() && View() == LeaveForSwitch(old(View()), i)
    {
      if i in instanceChannels && instanceChannels[i] in channels {
        RemoveMember(instanceChannels[i], i);
        events := events + [Left(instanceChannels[i], i)];
      }
    }

    /** The part of `join_channel` that enters the new channel. */
    method EnterChannel(i: Instance, c: ChannelId)
      requires Valid() && c in channels
      modifies this, channels.Values
      ensures Valid() && View() == Enter(old(View()), i, c)
      ensures channels == old(channels)
    {
      SetMembers(c, channels[c].members + [i]);
      instanceChannels := instanceChannels[i := c];
      if channels[c].kind == "private" {
        var known := if c in privateParticipants then privateParticipants[c] else {};
        privateParticipants := privateParticipants[c := known + {i}];
      }
      events := events + [Joined(c, i)];
    }

    method JoinChannel(i: Instance, c: ChannelId)
      requires Valid()
      modifies this, channels.Values
      ensures Valid() && View() == Join(old(View()), i, c)
      ensures channels == old(channels)
    {
      if c in channels {
        LeavePrevious(i);
        EnterChannel(i, c);
      }
    }

    method LeaveCurrentChannel(i: Instance)
      requires Valid()
      modifies this, channels.Values
      ensures Valid() && View() == Leave(old(View()), i)
      ensures channels == old(channels)
    {
      if i in instanceChannels {
        var c := instanceChannels[i];
        if c in channels {
          RemoveMember(c, i);
          if channels[c].kind == "private" && c in privateParticipants {
            privateParticipants := privateParticipants[c := privateParticipants[c] - {i}];
          }
          events := events + [Left(c, i)];
        }
        instanceChannels := instanceChannels - {i};
      }
    }

    /** The scan of `delete_channel` over every joined instance. */
    method DisassociateAll(c: ChannelId)
      modifies this`instanceChannels
      ensures instanceChannels == old(instanceChannels) - JoinedTo(old(instanceChannels), c)
    {
      var doomed := JoinedTo(instanceChannels, c);
      while doomed != {}
        invariant doomed <= instanceChannels.Keys
        invariant instanceChannels - doomed == old(instanceChannels) - JoinedTo(old(instanceChannels), c)
      {
        var i :| i in doomed;
        ghost var before := instanceChannels - doomed;
        instanceChannels := instanceChannels - {i};
        doomed := doomed - {i};
        assert instanceChannels - doomed == before;
      }
      assert instanceChannels - doomed == instanceChannels;
    }

    /** The walk of `destroy_private_channel` over one member list. */
    method DisassociateMembers(c: ChannelId, members: seq<Instance>)
      modifies this`instanceChannels
      ensures instanceChannels == old(instanceChannels) - WalkedFrom(old(instanceChannels), c, members)
    {
      assert members[..0] == [];
      for k := 0 to |members|
        invariant instanceChannels == old(instanceChannels) - WalkedFrom(old(instanceChannels), c, members[..k])
      {
        var i := members[k];
        assert members[..k + 1] == members[..k] + [i];
        if i in instanceChannels && instanceChannels[i] == c {
          instanceChannels := instanceChannels - {i};
        }
      }
      assert members[..|members|] == members;
    }

    /** Deletes a channel object and what is recorded under its id. */
    method RemoveChannel(c: ChannelId)
      requires Valid()
      modifies this
      ensures Valid() && View() == DropChannel(old(View()), c)
      ensures channels == old(channels) - {c}
    {
      channels, contents := channels - {c}, contents - {c};
      privateOwners := privateOwners - {c};
      privateParticipants := privateParticipants - {c};
      privateInvites := privateInvites - {c};
      channelContexts := channelContexts - {c};
      remoteListeners := remoteListeners - {c};
    }

    method DeleteChannel(c: ChannelId) returns (deleted: bool)
      requires Valid()
      modifies this
      ensures Valid() && View() == Delete(old(View()), c)
      ensures deleted <==> c in old(channels)
    {
      if c !in channels {
        return false;
      }
      RemoveChannel(c);
      DisassociateAll(c);
      events := events + [Deleted(c)];
      return true;
    }

    method DestroyPrivateChannel(c: ChannelId)
      requires Valid()
      modifies this
      ensures Valid() && View() == Destroy(old(View()), c)
    {
      if c !in channels {
        return;
      }
      var channel := channels[c];
      RemoveChannel(c);
      DisassociateMembers(c, channel.members);
      events := events + [Destroyed(c)];
    }

    method CreatePrivateChannelInvite(c: ChannelId, allowed: Option<Instance>, token: Token) returns (r: Result<Token>)
      requires Valid()
      modifies this
      ensures Valid() && View() == CreateInvite(old(View()), c, allowed, token)
      ensures r == if IsPrivate(old(View()), c) then Ok(token) else Err("private channel not found")
    {
      if c !in channels || channels[c].kind != "private" {
        return Err("private channel not found");
      }
      var invites := if c in privateInvites then privateInvites[c] else map[];
      privateInvites := privateInvites[c := invites[token := allowed]];
      r := Ok(token);
    }

    method ConsumePrivateChannelInvite(c: ChannelId, token: Token, i: Instance) returns (accepted: bool)
      requires Valid()
      modifies this
      ensures Valid() && View() == ConsumeInvite(old(View()), c, token, i)
      ensures accepted <==> InviteAccepts(old(View()), c, token, i)
      ensures channels == old(channels)
    {
      if c !in privateInvites || token !in privateInvites[c] {
        return false;
      }
      var allowed := privateInvites[c][token];
      if allowed.Some? && allowed.value != i {
        return false;
      }
      var rest := privateInvites[c] - {token};
      privateInvites := privateInvites[c := rest];
      if rest == map[] {
        privateInvites := privateInvites - {c};
        assert privateInvites == old(privateInvites) - {c};
      }
      return true;
    }

    method SetChannelContext(c: ChannelId, ctx: Context)
      requires Valid()
      modifies this
      ensures Valid() && View() == SetContext(old(View()), c, ctx)
      ensures channels == old(channels)
    {
      if ctx.typ == "" {
        return;
      }
      var stored := if c in channelContexts then channelContexts[c] else map[];
      stored := stored[ctx.typ := ctx];
      stored := stored[LAST_CONTEXT_KEY := ctx];
      channelContexts := channelContexts[c := stored];
    }

    method GetChannelContext(c: ChannelId, typ: Option<string>) returns (r: Option<Context>)
      ensures r == GetContext(View(), c, typ)
    {
      if c !in channelContexts || channelContexts[c] == map[] {
        return None;
      }
      var key := if typ.Some? then typ.value else LAST_CONTEXT_KEY;
      return if key in channelContexts[c] then Some(channelContexts[c][key]) else None;
    }

    method ClearChannelContext(c: ChannelId)
      requires Valid()
      modifies this
      ensures Valid() && View() == ClearContext(old(View()), c)
    {
      channelContexts := channelContexts - {c};
    }

    method BroadcastToChannel(c: ChannelId, ctx: Context, source: Instance)
      requires Valid()
      modifies this
      ensures Valid() && View() == Broadcast(old(View()), c, ctx, source)
      ensures channels == old(channels)
    {
      if c in channels {
        SetChannelContext(c, ctx);
        events := events + [Broadcasted(c, source, ctx)];
      }
    }

    method AddRemotePrivateChannelListener(c: ChannelId, agent: string)
      requires Valid()
      modifies this
      ensures Valid() && View() == AddRemote(old(View()), c, agent)
    {
      if c == "" || agent == "" {
        return;
      }
      var agents := if c in remoteListeners then remoteListeners[c] else {};
      remoteListeners := remoteListeners[c := agents + {agent}];
    }

    method RemoveRemotePrivateChannelListener(c: ChannelId, agent: string)
      requires Valid()
      modifies this
      ensures Valid() && View() == RemoveRemote(old(View()), c, agent)
    {
      if c == "" || agent == "" || c !in remoteListeners || remoteListeners[c] == {} {
        return;
      }
      var rest := remoteListeners[c] - {agent};
      remoteListeners := remoteListeners[c := rest];
      if rest == {} {
        remoteListeners := remoteListeners - {c};
        assert remoteListeners == old(remoteListeners) - {c};
      }
    }

    method GetCurrentChannel(i: Instance) returns (r: Option<ChannelId>)
      requires Valid()
      ensures r == CurrentChannel(View(), i)
    {
      if i in instanceChannels && instanceChannels[i] != "" && instanceChannels[i] in channels {
        return Some(instanceChannels[i]);
      }
      return None;
    }

    method GetChannelMembers(c: ChannelId) returns (r: seq<Instance>)
      requires Valid()
      ensures r == Members(View(), c)
    {
      if c in channels {
        return channels[c].members;
      }
      return [];
    }
  }
}
