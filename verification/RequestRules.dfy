/** Who may do what: each request's outcome, under conditions on the manager's
    records themselves, and what follows for whole runs. */
module RequestRules {
  import opened Basics
  import opened Channels
  import opened ChannelRuns
  import opened InviteLedger

  // ---------- Each request ----------

  predicate OwnedBy(s: State, c: ChannelId, i: Instance) {
    c in s.owners && s.owners[c] == i
  }

  predicate PrivateChannel(s: State, c: ChannelId) {
    c in s.channels && s.channels[c].kind == "private"
  }

  /** The id a user channel is addressed by. */
  predicate Addresses(rawId: string, c: ChannelId) {
    (':' in rawId && c == rawId) || (':' !in rawId && c == "user:" + rawId)
  }

  /** User channels alone can be joined by name; whoever joins is then there. */
  lemma UserJoinOutcome(s: State, i: Instance, rawId: string, c: ChannelId)
    requires Addresses(rawId, c)
    ensures var (t, reply) := (Serve(s, JoinUserChannel(i, rawId)), ReplyTo(s, JoinUserChannel(i, rawId)));
            var allowed := c in s.channels && s.channels[c].kind == "user";
            && (reply == Done <==> allowed) && (reply == NoChannelFound <==> !allowed)
            && (allowed ==> i in t.current && t.current[i] == c && i in t.channels[c].members)
            && (!allowed ==> t == s)
  {
  }

  /** Whether the token is outstanding on the channel and admits the instance. */
  predicate Admits(s: State, c: ChannelId, token: Option<Token>, i: Instance) {
    && token.Some? && token.value != "" && c in s.invites && token.value in s.invites[c]
    && s.invites[c][token.value] in {None, Some(i)}
  }

  /** Private channels let in their owner, without spending a token, and whoever
      brings a token that admits it, which is then gone; nobody else. */
  lemma PrivateJoinOutcome(s: State, i: Instance, c: ChannelId, token: Option<Token>)
    ensures var r := JoinPrivateChannel(i, c, token);
            var (t, reply) := (Serve(s, r), ReplyTo(s, r));
            var allowed := PrivateChannel(s, c) && (OwnedBy(s, c, i) || Admits(s, c, token, i));
            && (reply == Done <==> allowed)
            && (reply == NoChannelFound <==> !PrivateChannel(s, c))
            && (allowed ==> && i in t.current && t.current[i] == c && i in t.channels[c].members
                            && c in t.participants && i in t.participants[c])
            && (allowed && OwnedBy(s, c, i) ==> t.invites == s.invites)
            && (allowed && !OwnedBy(s, c, i) ==> Invites(t, c) == Invites(s, c) - {token.value})
            && (!allowed ==> t == s)
  {
    if ReplyTo(s, JoinPrivateChannel(i, c, token)) == Done {
      if OwnedBy(s, c, i) {
        JoinState(s, i, c);
      } else {
        AdmissionState(s, i, c, token.value);
      }
    }
  }

  lemma JoinState(s: State, i: Instance, c: ChannelId)
    requires c in s.channels
    ensures var t := Join(s, i, c);
            && t.current == s.current[i := c] && c in t.channels && i in t.channels[c].members
            && t.channels.Keys == s.channels.Keys && t.invites == s.invites
            && (IsPrivate(s, c) ==> c in t.participants && i in t.participants[c])
  {
    JoinEffects(s, i, c);
  }

  /** Spending a token and joining. */
  lemma AdmissionState(s: State, i: Instance, c: ChannelId, token: Token)
    requires IsPrivate(s, c) && InviteAccepts(s, c, token, i)
    ensures var t := Join(ConsumeInvite(s, c, token, i), i, c);
            && t.current == s.current[i := c] && c in t.channels && i in t.channels[c].members
            && t.channels.Keys == s.channels.Keys
            && c in t.participants && i in t.participants[c]
            && Invites(t, c) == Invites(s, c) - {token}
            && forall d :: d != c ==> Invites(t, d) == Invites(s, d)
  {
    JoinState(ConsumeInvite(s, c, token, i), i, c);
  }

  /** Anyone may leave the current channel, whatever it is. */
  lemma LeaveOutcome(s: State, i: Instance)
    ensures ReplyTo(s, LeaveCurrentChannel(i)) == Done && i !in Serve(s, LeaveCurrentChannel(i)).current
  {
  }

  /** A private channel is left from within: it must be the current one, and have
      an id that is not empty. */
  lemma PrivateLeaveOutcome(s: State, i: Instance, c: ChannelId)
    ensures var (t, reply) := (Serve(s, LeavePrivateChannel(i, c)), ReplyTo(s, LeavePrivateChannel(i, c)));
            var allowed := PrivateChannel(s, c) && i in s.current && s.current[i] == c && c != "";
            && (reply == Done <==> allowed)
            && (reply == NoChannelFound <==> !PrivateChannel(s, c))
            && (allowed ==> i !in t.current)
            && (!allowed ==> t == s)
  {
  }

  /** A private channel is created exactly under a free id: with its creator as
      owner, only member and only participant, who stays in its current channel,
      and with no invitation. */
  lemma PrivateCreationOutcome(s: State, i: Instance, c: ChannelId)
    ensures var (t, reply) := (Serve(s, CreatePrivateChannel(i, c)), ReplyTo(s, CreatePrivateChannel(i, c)));
            && (reply == Done <==> c !in s.channels) && (reply == ChannelCreationFailed <==> c in s.channels)
            && (c !in s.channels ==>
                  && t.channels == s.channels[c := Channel("private", [i])]
                  && t.owners == s.owners[c := i] && t.participants == s.participants[c := {i}]
                  && c !in t.invites && t.current == s.current)
            && (c in s.channels ==> t == s)
  {
  }

  /** Only the owner of a private channel issues tokens; the new one is then
      outstanding for whom it was issued, and the others stay. */
  lemma InvitationOutcome(s: State, i: Instance, c: ChannelId, allowed: Option<Instance>, token: Token)
    ensures var r := CreateInvitation(i, c, allowed, token);
            var (t, reply) := (Serve(s, r), ReplyTo(s, r));
            var may := PrivateChannel(s, c) && OwnedBy(s, c, i);
            && (reply == Done <==> may)
            && (reply == NoChannelFound <==> !PrivateChannel(s, c))
            && (may ==> t == s.(invites := s.invites[c := Invites(s, c)[token := allowed]]))
            && (!may ==> t == s)
  {
  }

  /** Who may close the channel: its owner or a listed member, if it is private. */
  predicate MayClose(s: State, i: Instance, c: ChannelId) {
    PrivateChannel(s, c) && (OwnedBy(s, c, i) || i in s.channels[c].members)
  }

  lemma CloseOutcome(s: State, i: Instance, c: ChannelId)
    ensures var r := DisconnectPrivateChannel(i, c);
            var (t, reply) := (Serve(s, r), ReplyTo(s, r));
            && (reply == Done <==> MayClose(s, i, c))
            && (reply == NoChannelFound <==> !PrivateChannel(s, c))
            && (MayClose(s, i, c) ==> t.channels == s.channels - {c})
            && (!MayClose(s, i, c) ==> t == s)
  {
  }

  /** What the administrator does: any kind of channel under a free id, and any
      channel away. */
  lemma AdminOutcome(s: State, c: ChannelId, kind: string)
    ensures Serve(s, AdminCreate(c, kind)).channels
            == if c in s.channels then s.channels else s.channels[c := Channel(kind, [])]
    ensures Serve(s, AdminDelete(c)).channels == s.channels - {c}
    ensures ReplyTo(s, AdminDelete(c)) == Done <==> c in s.channels
  {
  }

  // ---------- Channels end by authority ----------

  predicate ClosesWithRight(s: State, r: Request, c: ChannelId) {
    r == AdminDelete(c) || (r.DisconnectPrivateChannel? && r.channel == c && MayClose(s, r.who, c))
  }

  /** A request takes a channel away exactly if it is the administrator's, or
      comes from its owner or a listed member and the channel is private. */
  lemma ChannelGoneIff(s: State, r: Request, c: ChannelId)
    requires c in s.channels
    ensures c !in Serve(s, r).channels <==> ClosesWithRight(s, r, c)
  {
    if r.JoinUserChannel? || r.JoinPrivateChannel? {
      JoiningState(s, r);
    } else if r.LeaveCurrentChannel? || r.LeavePrivateChannel? {
      LeaveEffects(s, r.who);
    }
  }

  /** The current channel an instance has, if any. */
  function Place(s: State, i: Instance): Option<ChannelId> {
    if i in s.current then Some(s.current[i]) else None
  }

  /** What a request to join leaves alone: which channels there are, who is where
      but the requester, and all tokens but a spent one. */
  lemma JoiningState(s: State, r: Request)
    requires r.JoinUserChannel? || r.JoinPrivateChannel?
    ensures var t := Serve(s, r);
            && t.channels.Keys == s.channels.Keys
            && (forall i :: i != r.who ==> Place(t, i) == Place(s, i))
            && forall d, u :: u in Invites(t, d) ==> u in Invites(s, d) && Invites(t, d)[u] == Invites(s, d)[u]
  {
    if ReplyTo(s, r) == Done {
      if r.JoinUserChannel? {
        JoinState(s, r.who, QualifiedId(r.rawId));
      } else if IsOwner(s, r.who, r.channel) {
        JoinState(s, r.who, r.channel);
      } else {
        AdmissionState(s, r.who, r.channel, r.token.value);
      }
    }
  }

  lemma {:induction false} ServedLast(rs: seq<Request>, more: seq<Request>)
    requires more != []
    ensures RunLedger(rs + more).state == Serve(RunLedger(rs + more[..|more| - 1]).state, more[|more| - 1])
  {
    assert (rs + more)[..|rs + more| - 1] == rs + more[..|more| - 1];
  }

  /** The request at position `k` of `more`, served after `rs`, closes the channel
      with right. */
  predicate ClosedAt(rs: seq<Request>, more: seq<Request>, k: int, c: ChannelId) {
    0 <= k < |more| && ClosesWithRight(RunLedger(rs + more[..k]).state, more[k], c)
  }

  lemma {:induction false} ClosedAtFront(rs: seq<Request>, more: seq<Request>, k: int, c: ChannelId)
    requires more != [] && ClosedAt(rs, more[..|more| - 1], k, c)
    ensures ClosedAt(rs, more, k, c)
  {
    assert more[..|more| - 1][..k] == more[..k];
  }

  /** In every run a channel stays unless some request closes it with right. */
  lemma {:induction false} ClosedByRight(rs: seq<Request>, more: seq<Request>, c: ChannelId) returns (k: int)
    requires c in RunLedger(rs).state.channels && c !in RunLedger(rs + more).state.channels
    ensures ClosedAt(rs, more, k, c)
  {
    assert more == [] ==> rs + more == rs;
    var front := more[..|more| - 1];
    var s := RunLedger(rs + front).state;
    ServedLast(rs, more);
    if c in s.channels {
      ChannelGoneIff(s, more[|more| - 1], c);
      k := |front|;
    } else {
      k := ClosedByRight(rs, front, c);
      ClosedAtFront(rs, more, k, c);
    }
  }

  // ---------- Tokens come from owners ----------

  /** The request at position `k` was the owner's, and issued this token. */
  predicate IssuedAt(rs: seq<Request>, k: int, c: ChannelId, t: Token, allowed: Option<Instance>) {
    && 0 <= k < |rs| && rs[k].CreateInvitation? && rs[k].channel == c && rs[k].newToken == t && rs[k].allowed == allowed
    && PrivateChannel(RunLedger(rs[..k]).state, c) && OwnedBy(RunLedger(rs[..k]).state, c, rs[k].who)
  }

  /** A request adds no outstanding token but the one that it issues. */
  lemma NewTokenIssued(s: State, r: Request, c: ChannelId, t: Token)
    requires t in Invites(Serve(s, r), c)
    requires t !in Invites(s, c) || Invites(s, c)[t] != Invites(Serve(s, r), c)[t]
    ensures r.CreateInvitation? && r.channel == c && r.newToken == t && r.allowed == Invites(Serve(s, r), c)[t]
    ensures PrivateChannel(s, c) && OwnedBy(s, c, r.who)
  {
    if r.JoinUserChannel? || r.JoinPrivateChannel? {
      JoiningState(s, r);
    } else if r.LeaveCurrentChannel? || r.LeavePrivateChannel? {
      LeaveEffects(s, r.who);
    }
  }

  /** In every run, an outstanding token was issued by a request of the channel's
      owner at the time, for whom it stands. */
  lemma {:induction false} TokenIssuedByOwner(rs: seq<Request>, c: ChannelId, t: Token)
    requires t in Invites(RunLedger(rs).state, c)
    ensures exists k :: IssuedAt(rs, k, c, t, Invites(RunLedger(rs).state, c)[t])
  {
    if rs != [] {
      var before, r := rs[..|rs| - 1], rs[|rs| - 1];
      var s := RunLedger(before).state;
      assert RunLedger(rs).state == Serve(s, r);
      var allowed := Invites(Serve(s, r), c)[t];
      if t !in Invites(s, c) || Invites(s, c)[t] != allowed {
        NewTokenIssued(s, r, c, t);
        assert IssuedAt(rs, |rs| - 1, c, t, allowed);
      } else {
        TokenIssuedByOwner(before, c, t);
        var k :| IssuedAt(before, k, c, t, allowed);
        assert rs[..k] == before[..k] && IssuedAt(rs, k, c, t, allowed);
      }
    }
  }

  /** In every run with fresh tokens, a token opens a private channel to an
      instance exactly if it was issued there, open or for that instance, and
      has not been consumed. */
  lemma TokenOpensIff(rs: seq<Request>, i: Instance, c: ChannelId, token: Token)
    requires FreshTokens(rs) && token != "" && PrivateChannel(RunLedger(rs).state, c)
    requires !OwnedBy(RunLedger(rs).state, c, i)
    ensures var l := RunLedger(rs);
            ReplyTo(l.state, JoinPrivateChannel(i, c, Some(token))) == Done
            <==> token in Issued(l, c) && token !in Consumed(l, c) && Issued(l, c)[token] in {None, Some(i)}
  {
    var l := RunLedger(rs);
    RunKeepsLedger(rs);
    assert Booked(PageOf(l, c), l.used, l.spent);
    PrivateJoinOutcome(l.state, i, c, Some(token));
  }

  // ---------- Nobody is moved by others ----------

  /** A request of another, or of the administrator, changes an instance's
      current channel only by taking that channel away. */
  lemma MovedOnlyByItself(s: State, r: Request, i: Instance)
    requires Inv(s) && Place(Serve(s, r), i) != Place(s, i)
    ensures || (r.JoinUserChannel? && r.who == i) || (r.JoinPrivateChannel? && r.who == i)
            || (r.LeaveCurrentChannel? && r.who == i) || (r.LeavePrivateChannel? && r.who == i)
            || (Place(Serve(s, r), i) == None && i in s.current && ClosesWithRight(s, r, s.current[i]))
  {
    if r.JoinUserChannel? || r.JoinPrivateChannel? {
      JoiningState(s, r);
    } else if r.LeaveCurrentChannel? || r.LeavePrivateChannel? {
      assert Leave(s, r.who).current == s.current - {r.who};
    } else if r.DisconnectPrivateChannel? {
      DestroyEqualsDelete(s, r.channel);
    }
  }
}
