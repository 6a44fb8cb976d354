/** Consequences of the member-count law: entries are conserved, and exactly
    when leaving undoes joining. */
module ChannelLaws {
  import opened Basics
  import opened Channels
  import opened ChannelRuns

  /** The member entries of all channels together. */
  ghost function MemberTotal(channels: ChannelMap): nat
    decreases |channels|
  {
    if channels == map[] then 0
    else
      var c :| c in channels;
      |channels[c].members| + MemberTotal(channels - {c})
  }

  lemma {:induction false} MemberTotalSplit(channels: ChannelMap, c: ChannelId)
    requires c in channels
    ensures MemberTotal(channels) == |channels[c].members| + MemberTotal(channels - {c})
    decreases |channels|
  {
    var d :| d in channels && MemberTotal(channels) == |channels[d].members| + MemberTotal(channels - {d});
    if d != c {
      MemberTotalSplit(channels - {d}, c);
      MemberTotalSplit(channels - {c}, d);
      assert channels - {d} - {c} == channels - {c} - {d};
    }
  }

  /** A member list is as long as the set of joined instances, plus one for an
      owner. */
  lemma MembersCounted(s: State, c: ChannelId)
    requires Inv(s) && c in s.channels
    ensures |s.channels[c].members| == |JoinedTo(s.current, c)| + (if c in s.owners then 1 else 0)
  {
    var joined := JoinedTo(s.current, c);
    var owner := if c in s.owners then {s.owners[c]} else {};
    forall i
      ensures multiset(s.channels[c].members)[i] == (multiset(joined) + multiset(owner))[i]
    {
      CountIsMultiplicity(s.channels[c].members, i);
      assert Count(s.channels[c].members, i) == Share(s.current, s.owners, c, i);
    }
    assert multiset(s.channels[c].members) == multiset(joined) + multiset(owner);
  }

  /** In every state that keeps the law, and so in every run, the entries of
      all member lists number exactly the joined instances plus the owned
      channels. */
  lemma {:induction false} EntriesConserved(s: State)
    requires Inv(s)
    ensures MemberTotal(s.channels) == |s.current| + |s.owners|
    decreases |s.channels|
  {
    if s.channels == map[] {
      assert s.current == map[] && s.owners == map[];
    } else {
      var c :| c in s.channels;
      DeletionSizes(s, c);
      DeleteKeepsInv(s, c);
      EntriesConserved(Delete(s, c));
      MemberTotalSplit(s.channels, c);
      MembersCounted(s, c);
    }
  }

  lemma DeletionSizes(s: State, c: ChannelId)
    requires c in s.channels
    ensures |Delete(s, c).channels| == |s.channels| - 1
    ensures |Delete(s, c).current| == |s.current| - |JoinedTo(s.current, c)|
    ensures |Delete(s, c).owners| == |s.owners| - (if c in s.owners then 1 else 0)
  {
  }

  lemma RunConservesEntries(ops: seq<Op>)
    ensures MemberTotal(Run(ops).channels) == |Run(ops).current| + |Run(ops).owners|
  {
    RunKeepsInv(ops);
    EntriesConserved(Run(ops));
  }

  lemma {:induction false} LastOccurrenceOnly<T>(s: seq<T>, x: T)
    requires Count(s, x) == 1
    ensures WithoutFirst(s, x) + [x] == s <==> s[|s| - 1] == x
  {
    var p := s[..|s| - 1];
    assert s == p + [s[|s| - 1]];
    CountAppend(p, [s[|s| - 1]], x);
    if s[|s| - 1] == x {
      assert Count([x], x) == 1;
      WithoutFirstLast(p, x);
    }
  }

  lemma {:induction false} WithoutFirstLast<T>(p: seq<T>, x: T)
    requires x !in p
    ensures WithoutFirst(p + [x], x) == p
  {
    if p != [] {
      assert (p + [x])[1..] == p[1..] + [x];
      WithoutFirstLast(p[1..], x);
    } else {
      assert p + [x] == [x];
    }
  }

  lemma MembersAfterReturn(s: State, i: Instance, c: ChannelId)
    requires Inv(s) && c in s.channels && i !in s.current
    ensures var members := s.channels[c].members;
            WithoutFirst(members + [i], i) == members <==> i !in members || members[|members| - 1] == i
  {
    var members := s.channels[c].members;
    if i in members {
      assert Count(members, i) == Share(s.current, s.owners, c, i);
      WithoutFirstAppend(members, i, [i]);
      LastOccurrenceOnly(members, i);
    } else {
      WithoutFirstLast(members, i);
    }
  }

  /** When leaving restores what joining changed: the instance was not already
      listed, or was the last entry; and the channel is not private, or the
      instance was not yet one of its recorded participants. */
  predicate LeaveRestores(s: State, i: Instance, c: ChannelId)
    requires c in s.channels
  {
    var ch := s.channels[c];
    && (i !in ch.members || ch.members[|ch.members| - 1] == i)
    && (ch.kind == "private" ==> c in s.participants && i !in s.participants[c])
  }

  /** Leaving after a join restores the state exactly if the instance had no
      current channel and the channel forgets it. */
  lemma LeaveUndoesJoinIff(s: State, i: Instance, c: ChannelId)
    requires Inv(s) && c in s.channels
    ensures Leave(Join(s, i, c), i).(events := s.events) == s <==> i !in s.current && LeaveRestores(s, i, c)
  {
    if i in s.current {
      assert i !in Leave(Join(s, i, c), i).current;
    } else {
      FirstJoinUndoneIff(s, i, c);
    }
  }

  lemma FirstJoinUndoneIff(s: State, i: Instance, c: ChannelId)
    requires Inv(s) && c in s.channels && i !in s.current
    ensures Leave(Join(s, i, c), i).(events := s.events) == s <==> LeaveRestores(s, i, c)
  {
    var ch := s.channels[c];
    var t := Leave(Join(s, i, c), i);
    MembersAfterReturn(s, i, c);
    assert t.current == s.current;
    assert t.channels == s.channels[c := ch.(members := WithoutFirst(ch.members + [i], i))];
    assert t.channels == s.channels <==> WithoutFirst(ch.members + [i], i) == ch.members by {
      assert t.channels[c].members == WithoutFirst(ch.members + [i], i);
    }
    ParticipantsAfterReturn(s, i, c);
    assert t.(events := s.events) == s.(channels := t.channels, participants := t.participants);
  }

  lemma ParticipantsAfterReturn(s: State, i: Instance, c: ChannelId)
    requires c in s.channels && i !in s.current
    ensures Leave(Join(s, i, c), i).participants == s.participants
            <==> (s.channels[c].kind == "private" ==> c in s.participants && i !in s.participants[c])
  {
  }

  /** Removing a remote listener undoes adding it exactly when the agent was not
      listed before, or either name is empty and nothing happens. */
  lemma RemoveRemoteUndoesAddIff(s: State, c: ChannelId, agent: string)
    requires NoEmptyRemote(s)
    ensures RemoveRemote(AddRemote(s, c, agent), c, agent) == s
            <==> c == "" || agent == "" || !(c in s.remote && agent in s.remote[c])
  {
    var before := if c in s.remote then s.remote[c] else {};
    var t := RemoveRemote(AddRemote(s, c, agent), c, agent);
    if c == "" || agent == "" {
      assert t == s;
    } else if agent in before {
      assert c in s.remote && (c !in t.remote || agent !in t.remote[c]);
    } else {
      assert before + {agent} - {agent} == before;
      assert t.remote == s.remote;
    }
  }

  ghost predicate NoEmptyRemote(s: State) {
    forall c :: c in s.remote ==> s.remote[c] != {}
  }

  /** In every run no channel keeps an empty set of remote listeners. */
  lemma {:induction false} RunKeepsRemoteNonempty(ops: seq<Op>)
    ensures NoEmptyRemote(Run(ops))
  {
    if ops != [] {
      var s := Run(ops[..|ops| - 1]);
      RunKeepsRemoteNonempty(ops[..|ops| - 1]);
      RemoteStep(s, ops[|ops| - 1]);
    }
  }

  lemma RemoteStep(s: State, op: Op)
    requires NoEmptyRemote(s)
    ensures NoEmptyRemote(Step(s, op))
  {
  }

  /** Nothing is known of a channel but that it exists. */
  ghost predicate Blank(s: State, c: ChannelId) {
    && c in s.channels && s.channels[c].members == []
    && JoinedTo(s.current, c) == {}
    && c !in s.owners && c !in s.participants && c !in s.invites && c !in s.remote && c !in s.contexts
  }

  /** An id created again after its channel was deleted or destroyed is of the
      new kind and inherits nothing from the earlier channel. */
  lemma RecreatedIsBlank(s: State, c: ChannelId, kind: string)
    requires Inv(s) && c in s.channels
    ensures Blank(Create(Delete(s, c), c, kind), c) && Blank(Create(Destroy(s, c), c, kind), c)
    ensures Create(Delete(s, c), c, kind).channels[c].kind == kind == Create(Destroy(s, c), c, kind).channels[c].kind
  {
    DestroyEqualsDelete(s, c);
  }

  /** An id created for the first time is blank exactly when no remote listener
      or context was recorded for it while it was unknown. */
  lemma FirstCreatedIsBlankIff(s: State, c: ChannelId, kind: string)
    requires Inv(s) && c !in s.channels
    ensures Blank(Create(s, c, kind), c) <==> c !in s.remote && c !in s.contexts
    ensures Create(s, c, kind).channels[c].kind == kind
  {
  }

  // ---------- What the queries mean ----------

  /** In a state that keeps the law, an instance has no channel to report exactly
      if it never joined one, left it, or joined the one with the empty id; a
      reported channel is known and lists the instance. */
  lemma CurrentChannelIff(s: State, i: Instance)
    requires Inv(s)
    ensures CurrentChannel(s, i) == None <==> i !in s.current || s.current[i] == ""
    ensures var c := CurrentChannel(s, i); c.Some? ==> c.value in s.channels && i in Members(s, c.value)
  {
    if i in s.current {
      var c := s.current[i];
      assert Count(s.channels[c].members, i) == Share(s.current, s.owners, c, i);
    }
  }

  /** The listed members are exactly the joined instances and the owner; each is
      listed once, and only an owner that has joined its own channel twice. */
  lemma MembersAreJoinedOrOwner(s: State, c: ChannelId, i: Instance)
    requires Inv(s)
    ensures i in Members(s, c)
            <==> c in s.channels && (i in JoinedTo(s.current, c) || (c in s.owners && s.owners[c] == i))
    ensures Count(Members(s, c), i) == 2 <==> i in JoinedTo(s.current, c) && c in s.owners && s.owners[c] == i
  {
    if c in s.channels {
      assert Count(s.channels[c].members, i) == Share(s.current, s.owners, c, i);
    } else {
      assert i !in JoinedTo(s.current, c);
    }
  }

  // ---------- What a removal leaves ----------

  /** Both tables say the same of an id. */
  predicate Agree<T(==)>(a: map<ChannelId, T>, b: map<ChannelId, T>, d: ChannelId) {
    (d in a <==> d in b) && (d in a ==> d in b && a[d] == b[d])
  }

  /** All records under an id are the same. */
  ghost predicate SameRecords(s: State, t: State, d: ChannelId) {
    && Agree(s.channels, t.channels, d) && Agree(s.owners, t.owners, d) && Agree(s.participants, t.participants, d)
    && Agree(s.invites, t.invites, d) && Agree(s.remote, t.remote, d) && Agree(s.contexts, t.contexts, d)
    && JoinedTo(s.current, d) == JoinedTo(t.current, d)
  }

  lemma DropSparesOthers(s: State, c: ChannelId, d: ChannelId)
    requires d != c
    ensures SameRecords(s, DropChannel(s, c), d)
  {
  }

  /** Deleting or destroying a channel leaves every record under every other id,
      and everyone who joined another channel there. */
  lemma RemovalSparesOthers(s: State, c: ChannelId, d: ChannelId)
    requires d != c
    ensures SameRecords(s, Delete(s, c), d) && SameRecords(s, Destroy(s, c), d)
  {
    DropSparesOthers(s, c, d);
    if c in s.channels {
      CurrentSparesOthers(s.current, JoinedTo(s.current, c), c, d);
      CurrentSparesOthers(s.current, WalkedFrom(s.current, c, s.channels[c].members), c, d);
    }
  }

  lemma CurrentSparesOthers(current: CurrentMap, gone: set<Instance>, c: ChannelId, d: ChannelId)
    requires d != c && gone <= JoinedTo(current, c)
    ensures JoinedTo(current - gone, d) == JoinedTo(current, d)
  {
  }

  // ---------- Remote listeners, by history ----------

  /** The operation takes the agent off the channel's list, or the channel away. */
  predicate Unlists(s: State, op: Op, c: ChannelId, agent: string) {
    || op == RemoveRemoteOp(c, agent)
    || ((op == DeleteOp(c) || op == DestroyOp(c)) && c in s.channels)
  }

  /** The agent was listed at position `k` and not taken off since. */
  predicate ListedAt(ops: seq<Op>, k: int, c: ChannelId, agent: string) {
    && 0 <= k < |ops| && ops[k] == AddRemoteOp(c, agent)
    && forall j :: k < j < |ops| ==> !Unlists(Run(ops[..j]), ops[j], c, agent)
  }

  predicate Lists(s: State, c: ChannelId, agent: string) {
    c in s.remote && agent in s.remote[c]
  }

  lemma ListedAtStep(before: seq<Op>, op: Op, k: nat, c: ChannelId, agent: string)
    requires k < |before|
    ensures ListedAt(before + [op], k, c, agent)
            <==> ListedAt(before, k, c, agent) && !Unlists(Run(before), op, c, agent)
  {
    var ops := before + [op];
    assert forall j :: 0 <= j < |before| ==> ops[j] == before[j] && ops[..j] == before[..j];
    assert ops[|before|] == op && ops[..|before|] == before;
  }

  lemma ListsStep(s: State, op: Op, c: ChannelId, agent: string)
    requires c != "" && agent != ""
    ensures Lists(Step(s, op), c, agent)
            <==> op == AddRemoteOp(c, agent) || (Lists(s, c, agent) && !Unlists(s, op, c, agent))
  {
    if op.AddRemoteOp? {
      assert Step(s, op) == AddRemote(s, op.channel, op.agent);
    } else if op.RemoveRemoteOp? {
      ListsAfterRemoving(s, op.channel, op.agent, c, agent);
    } else if op.DeleteOp? || op.DestroyOp? {
      assert Step(s, op).remote == if op.channel in s.channels then s.remote - {op.channel} else s.remote;
    } else {
      RemoteUntouched(s, op);
    }
  }

  lemma ListsAfterRemoving(s: State, d: ChannelId, b: string, c: ChannelId, agent: string)
    requires c != "" && agent != ""
    ensures Lists(RemoveRemote(s, d, b), c, agent) <==> Lists(s, c, agent) && !(d == c && b == agent)
  {
    if d in s.remote && d == c {
      var rest := s.remote[d] - {b};
      assert agent in rest <==> agent in s.remote[d] && b != agent;
    }
  }

  /** A name that is empty is never listed. */
  lemma NamelessStep(s: State, op: Op, c: ChannelId, agent: string)
    requires (c == "" || agent == "") && !Lists(s, c, agent)
    ensures !Lists(Step(s, op), c, agent)
  {
    if !op.AddRemoteOp? && !op.RemoveRemoteOp? && !op.DeleteOp? && !op.DestroyOp? {
      RemoteUntouched(s, op);
    }
  }

  lemma RemoteUntouched(s: State, op: Op)
    requires !op.AddRemoteOp? && !op.RemoveRemoteOp? && !op.DeleteOp? && !op.DestroyOp?
    ensures Step(s, op).remote == s.remote
  {
    if op.JoinOp? {
      assert LeaveForSwitch(s, op.instance).remote == s.remote;
    } else if op.LeaveOp? {
      assert Leave(s, op.instance).remote == s.remote;
    }
  }

  /** In every run an agent is listed for a channel exactly if it was added, under
      names that are not empty, and since then neither removed nor the channel
      deleted or destroyed. */
  lemma {:induction false} RunListsRemote(ops: seq<Op>, c: ChannelId, agent: string)
    ensures Lists(Run(ops), c, agent) <==> c != "" && agent != "" && exists k :: ListedAt(ops, k, c, agent)
  {
    if ops != [] {
      var before, op := ops[..|ops| - 1], ops[|ops| - 1];
      assert ops == before + [op];
      RunListsRemote(before, c, agent);
      if c == "" || agent == "" {
        NamelessStep(Run(before), op, c, agent);
      } else {
        ListsStep(Run(before), op, c, agent);
      }
      forall k | 0 <= k < |before|
        ensures ListedAt(ops, k, c, agent) <==> ListedAt(before, k, c, agent) && !Unlists(Run(before), op, c, agent)
      {
        ListedAtStep(before, op, k, c, agent);
      }
      if op == AddRemoteOp(c, agent) {
        assert ListedAt(ops, |before|, c, agent);
      }
      if exists k :: ListedAt(before, k, c, agent) {
        var k :| ListedAt(before, k, c, agent);
        assert 0 <= k < |before|;
      }
    }
  }
}
